/** `GET /api/messages?recipientId=…` and `POST /api/messages`: the message history between
    two users, and sending a message. The collection is an object holding the stored messages;
    `Message.create` appends to it. */
module MessageStore {
  import opened Wrappers
  import opened Http
  import opened Seqs
  import opened Messages

  const RecipientRequired := "Recipient ID is required"
  const FieldsRequired := "Content and receiver ID are required"
  const FetchFailed := "Failed to fetch messages"
  const CreateFailed := "Failed to create message"

  /** `m` was sent by one of `a`, `b` to the other. */
  predicate Between(a: UserId, b: UserId, m: Message) {
    (m.sender == a && m.receiver == b) || (m.sender == b && m.receiver == a)
  }

  /** The history query: the messages between `me` and `other`, oldest first. */
  function ListBetween(messages: seq<Message>, me: UserId, other: UserId): (r: seq<Message>)
    ensures forall m :: multiset(r)[m] == if Between(me, other, m) then multiset(messages)[m] else 0
    ensures forall i, j :: 0 <= i < j < |r| ==> r[i].createdAt <= r[j].createdAt
  {
    var r := SortBy(Filter(messages, (m: Message) => Between(me, other, m)), OldestFirst);
    assert forall i, j :: 0 <= i < j < |r| ==> OldestFirst(r[i]) <= OldestFirst(r[j]);
    r
  }

  /** The body check of `POST`: `content` and `receiverId` are present and not empty. */
  predicate ValidPostBody(content: Option<string>, receiverId: Option<string>) {
    Truthy(content) && Truthy(receiverId)
  }

  /** What `Message.create` fills in itself: the id, the `read` flag (by the message schema, which
      is not part of this model) and the creation timestamp. */
  datatype Stamp = Stamp(id: MessageId, read: bool, createdAt: int)

  /** The stored `messages` collection. */
  class MessageCollection {
    var messages: seq<Message>

    constructor (initial: seq<Message>)
      ensures messages == initial
    {
      messages := initial;
    }

    /** `Message.create`: the new message goes after every stored one. */
    method Append(m: Message)
      modifies this
      ensures messages == old(messages) + [m]
    {
      messages := messages + [m];
    }

    /** `GET`: 401 without a session, 400 without a `recipientId`, 500 when the database fails,
        otherwise the history between the session user and the recipient. */
    function Get(session: Option<UserId>, recipientId: Option<string>, db: Attempt): (r: Response<seq<Message>>)
      reads this
      ensures session.None? ==> r == Unauthorized()
      ensures session.Some? && !Truthy(recipientId) ==>
        r == Failure(StatusBadRequest, ErrorBody(RecipientRequired, None))
      ensures session.Some? && Truthy(recipientId) && db.Throws? ==>
        r == Failure(StatusServerError, ErrorBody(FetchFailed, None))
      ensures r.Success? <==> session.Some? && Truthy(recipientId) && db.Completes?
      ensures r.Success? ==> r.body == ListBetween(messages, session.value, recipientId.value)
    {
      if session.None? then Unauthorized()
      else if !Truthy(recipientId) then Failure(StatusBadRequest, ErrorBody(RecipientRequired, None))
      else if db.Throws? then Failure(StatusServerError, ErrorBody(FetchFailed, None))
      else Success(ListBetween(messages, session.value, recipientId.value))
    }

    /** `POST`: 401 without a session and 400 for a missing or empty field, both leaving the
        collection unchanged. `created` is the outcome of connecting and of `Message.create`;
        when it fails nothing is stored and the reply is 500. `reply` is the outcome of reading
        the created message back: when that fails the message stays stored but the reply is
        still 500. */
    method Post(session: Option<UserId>, content: Option<string>, receiverId: Option<string>,
                created: Outcome<Stamp>, reply: Attempt)
      returns (r: Response<Message>)
      modifies this
      ensures session.None? ==> r == Unauthorized() && messages == old(messages)
      ensures session.Some? && !ValidPostBody(content, receiverId) ==>
        r == Failure(StatusBadRequest, ErrorBody(FieldsRequired, None)) && messages == old(messages)
      ensures session.Some? && ValidPostBody(content, receiverId) && created.Fails? ==>
        r == Failure(StatusServerError, ErrorBody(CreateFailed, None)) && messages == old(messages)
      ensures session.Some? && ValidPostBody(content, receiverId) && created.Yields? ==>
        var stamp := created.value;
        var m := Message(stamp.id, session.value, receiverId.value, content.value, stamp.read, stamp.createdAt);
        && messages == old(messages) + [m]
        && r == (if reply.Completes? then Success(m)
                 else Failure(StatusServerError, ErrorBody(CreateFailed, None)))
    {
      if session.None? {
        return Unauthorized();
      }
      if !ValidPostBody(content, receiverId) {
        return Failure(StatusBadRequest, ErrorBody(FieldsRequired, None));
      }
      if created.Fails? {
        return Failure(StatusServerError, ErrorBody(CreateFailed, None));
      }
      var stamp := created.value;
      var m := Message(stamp.id, session.value, receiverId.value, content.value, stamp.read, stamp.createdAt);
      Append(m);
      if reply.Throws? {
        return Failure(StatusServerError, ErrorBody(CreateFailed, None));
      }
      return Success(m);
    }
  }

  /** The history is the same whichever of the two users asks for it. */
  lemma ListBetweenSymmetric(messages: seq<Message>, a: UserId, b: UserId)
    ensures ListBetween(messages, a, b) == ListBetween(messages, b, a)
  {
    FilterAgrees(messages, (m: Message) => Between(a, b, m), (m: Message) => Between(b, a, m));
  }

  /** A stored message shows in the history of its sender and receiver, asked by either. */
  lemma AppendedMessageListed(messages: seq<Message>, m: Message)
    ensures m in ListBetween(messages + [m], m.sender, m.receiver)
    ensures m in ListBetween(messages + [m], m.receiver, m.sender)
  {
    assert multiset(messages + [m])[m] > 0;
    var r := ListBetween(messages + [m], m.sender, m.receiver);
    assert multiset(r)[m] > 0;
    ListBetweenSymmetric(messages + [m], m.sender, m.receiver);
  }

  /** Appending a message leaves every other pair's history as it was. */
  lemma AppendKeepsOtherHistories(messages: seq<Message>, m: Message, a: UserId, b: UserId)
    requires !Between(a, b, m)
    ensures multiset(ListBetween(messages + [m], a, b)) == multiset(ListBetween(messages, a, b))
  {
    var r := ListBetween(messages + [m], a, b);
    var r0 := ListBetween(messages, a, b);
    forall x ensures multiset(r)[x] == multiset(r0)[x] {
      assert multiset(messages + [m])[x] == multiset(messages)[x] + (if x == m then 1 else 0);
    }
  }
}
