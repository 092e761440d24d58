/** The chat window with one recipient: it loads the recipient and the history between the
    two users, appends messages as they are sent or arrive, and right-aligns the session user's
    own messages. */
module Chat {
  import opened Wrappers
  import opened Http
  import opened Text
  import opened Messages
  import MessageStore

  /** A message as the chat receives it, with both parties joined. */
  datatype ChatMessage = ChatMessage(id: string, sender: Party, receiver: Party, content: string, createdAt: int)

  /** The JSON body `handleSendMessage` posts to the messages route. */
  datatype SendRequest = SendRequest(content: string, receiverId: string)

  /** How a send ends: the route returns the stored message, or the request fails (it rejects,
      the response is not `ok`, or its body is not JSON). */
  datatype SendOutcome = Sent(message: ChatMessage) | SendFails

  /** The send guard: the input is blank after `trim`, or there is no socket, or no session user
      id. */
  predicate SendBlocked(newMessage: string, hasSocket: bool, sessionUserId: Option<string>) {
    Trim(newMessage) == "" || !hasSocket || !Truthy(sessionUserId)
  }

  /** A send is blocked by the text alone exactly when that text is all whitespace. */
  lemma BlankTextBlocks(newMessage: string, sessionUserId: Option<string>)
    requires Truthy(sessionUserId)
    ensures SendBlocked(newMessage, true, sessionUserId) <==>
      forall i :: 0 <= i < |newMessage| ==> IsWhitespace(newMessage[i])
  {
    TrimEmptyIffBlank(newMessage);
  }

  /** What the chat sends passes the route's body check whenever the chat has a recipient id:
      the text, sent untrimmed, is not empty because it is not blank. */
  lemma SentRequestAccepted(newMessage: string, recipientId: string)
    requires Trim(newMessage) != ""
    ensures MessageStore.ValidPostBody(Some(newMessage), Some(recipientId)) <==> recipientId != ""
  {
    TrimEmptyIffBlank(newMessage);
  }

  /** One rendered message: its text, and whether it sits on the right. */
  datatype Bubble = Bubble(content: string, right: bool)

  /** A message is the session user's own when its sender id equals the session user id. */
  predicate IsOwn(m: ChatMessage, sessionUserId: Option<string>) {
    sessionUserId == Some(m.sender.id)
  }

  /** The rendered messages, in order: exactly the session user's own messages are on the
      right. */
  function Bubbles(messages: seq<ChatMessage>, sessionUserId: Option<string>): (r: seq<Bubble>)
    ensures |r| == |messages|
    ensures forall i :: 0 <= i < |r| ==> r[i].content == messages[i].content
    ensures forall i :: 0 <= i < |r| ==> (r[i].right <==> IsOwn(messages[i], sessionUserId))
  {
    if messages == [] then []
    else [Bubble(messages[0].content, IsOwn(messages[0], sessionUserId))] + Bubbles(messages[1..], sessionUserId)
  }

  /** Without a session user nothing is on the right. */
  lemma NoSessionAllLeft(messages: seq<ChatMessage>)
    ensures forall b :: b in Bubbles(messages, None) ==> !b.right
  {
    var r := Bubbles(messages, None);
    forall b | b in r ensures !b.right {
      var i :| 0 <= i < |r| && r[i] == b;
    }
  }

  /** The recipient's record, once loaded. */
  datatype Recipient = Recipient(id: string, name: string, image: Option<string>)

  /** What the component renders: nothing until the recipient has loaded, then the recipient
      and the messages. */
  function ChatView(recipient: Option<Recipient>, messages: seq<ChatMessage>, sessionUserId: Option<string>): (v: Option<(Recipient, seq<Bubble>)>)
    ensures v.None? <==> recipient.None?
    ensures v.Some? ==> v.value.0 == recipient.value && v.value.1 == Bubbles(messages, sessionUserId)
  {
    if recipient.None? then None else Some((recipient.value, Bubbles(messages, sessionUserId)))
  }

  /** The state of one chat window. `hasSocket` records whether the socket has been set. */
  class ChatWindow {
    const recipientId: string
    var messages: seq<ChatMessage>
    var newMessage: string
    var hasSocket: bool
    var recipient: Option<Recipient>

    /** A freshly opened window: no messages, an empty input, no socket yet, nothing loaded. */
    constructor (recipientId: string)
      ensures this.recipientId == recipientId
      ensures messages == [] && newMessage == "" && !hasSocket && recipient == None
    {
      this.recipientId := recipientId;
      messages := [];
      newMessage := "";
      hasSocket := false;
      recipient := None;
    }

    /** The socket effect: the socket is set. */
    method ConnectSocket()
      modifies this
      ensures hasSocket
      ensures messages == old(messages) && newMessage == old(newMessage) && recipient == old(recipient)
    {
      hasSocket := true;
    }

    /** Typing in the input. */
    method EditInput(text: string)
      modifies this
      ensures newMessage == text
      ensures messages == old(messages) && hasSocket == old(hasSocket) && recipient == old(recipient)
    {
      newMessage := text;
    }

    /** The `private message` listener: the incoming message goes after every shown one. */
    method ReceivePrivateMessage(m: ChatMessage)
      modifies this
      ensures messages == old(messages) + [m]
      ensures newMessage == old(newMessage) && hasSocket == old(hasSocket) && recipient == old(recipient)
    {
      messages := messages + [m];
    }

    /** The loading effect, run only for a truthy `recipientId`. `fetchedRecipient` and
        `fetchedHistory` are what the two requests deliver (`None` when one fails, which leaves
        that part of the state as it was). A delivered history replaces the shown messages. */
    method LoadConversation(fetchedRecipient: Option<Recipient>, fetchedHistory: Option<seq<ChatMessage>>)
      modifies this
      ensures recipientId == "" ==> messages == old(messages) && recipient == old(recipient)
      ensures recipientId != "" ==>
        && recipient == (if fetchedRecipient.Some? then fetchedRecipient else old(recipient))
        && messages == fetchedHistory.GetOr(old(messages))
      ensures newMessage == old(newMessage) && hasSocket == old(hasSocket)
    {
      if recipientId != "" {
        if fetchedRecipient.Some? {
          recipient := fetchedRecipient;
        }
        if fetchedHistory.Some? {
          messages := fetchedHistory.value;
        }
      }
    }

    /** `handleSendMessage`. A blocked send does nothing and sends nothing. Otherwise it sends
        the input text, untrimmed, to the recipient (returned as `request`); when the route
        returns the stored message, that message goes after every shown one and the input is
        cleared, and when the send fails nothing changes. */
    method HandleSendMessage(sessionUserId: Option<string>, o: SendOutcome) returns (request: Option<SendRequest>)
      modifies this
      ensures SendBlocked(old(newMessage), hasSocket, sessionUserId) ==>
        request == None && messages == old(messages) && newMessage == old(newMessage)
      ensures !SendBlocked(old(newMessage), hasSocket, sessionUserId) ==>
        && request == Some(SendRequest(old(newMessage), recipientId))
        && (o.Sent? ==> messages == old(messages) + [o.message] && newMessage == "")
        && (o.SendFails? ==> messages == old(messages) && newMessage == old(newMessage))
      ensures hasSocket == old(hasSocket) && recipient == old(recipient)
    {
      if SendBlocked(newMessage, hasSocket, sessionUserId) {
        return None;
      }
      request := Some(SendRequest(newMessage, recipientId));
      if o.Sent? {
        messages := messages + [o.message];
        newMessage := "";
      }
    }
  }
}
