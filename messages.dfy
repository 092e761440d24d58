/** The records the message routes and components share: a stored message, a user's public
    summary, and that summary once joined into a reply. */
module Messages {
  import opened Wrappers

  type UserId = string
  type MessageId = string

  /** A stored message. `createdAt` is the creation timestamp as an integer. */
  datatype Message = Message(
    id: MessageId,
    sender: UserId,
    receiver: UserId,
    content: string,
    read: bool,
    createdAt: int)

  /** The public fields of a user record that replies join in (`name`, `image`). */
  datatype UserSummary = UserSummary(name: string, image: Option<string>)

  /** The user records, keyed by `_id`. */
  type Users = map<UserId, UserSummary>

  /** A user summary joined into a reply: `{ _id, name, image }`. */
  datatype Party = Party(id: UserId, name: string, image: Option<string>)

  /** The summary of the user with id `id`, taken from that user's record. */
  function PartyOf(users: Users, id: UserId): Party
    requires id in users
  {
    Party(id, users[id].name, users[id].image)
  }

  /** Sort key that puts later messages first. */
  function NewestFirst(m: Message): int {
    -m.createdAt
  }

  /** Sort key that puts earlier messages first. */
  function OldestFirst(m: Message): int {
    m.createdAt
  }
}
