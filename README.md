# Skill-sharing app: a Dafny model of its routes, schema and client state

This project models the core of a Next.js skill-sharing application in Dafny and proves
properties of the model:

- the conversations aggregation (`GET /api/messages/conversations`): one entry per
  counterparty, holding the latest message with them;
- the message history and sending route (`/api/messages`);
- the posts route (`/api/posts`) and the `Post` schema it validates against;
- the users route (`/api/users`), which strips passwords;
- the client-side state of the user directory, the posts page, the chat window and the
  messages page.

Server routes are functions of their inputs, or methods. The message and posts routes are
methods on a collection object that they append to. The users route's `POST` is a method that
stores through a `create` parameter and edits the created object in place. Authentication is an
`Option` of the session user's id. Each step of a handler that can fail is an explicit outcome
parameter (`Attempt`, `Outcome<T>`). Consecutive calls share one outcome where their failures
are answered alike, such as connecting to the database and the query that follows. The client
components are classes whose fields are the React state, with one method per handler.
Each network request becomes an outcome parameter of its handler.

Helper modules:

- `Wrappers`: `Option`.
- `Http`: responses, error bodies, thrown errors, JavaScript truthiness.
- `Seqs`: `filter`, a stable sort, subsequences.
- `Text`: ASCII `toLowerCase`, `includes`, `trim`, and UTF-16 code units.
- `Messages`: the shared message record.

Timestamps are integers. Database ids are strings.

## Model

| member | source | states |
|---|---|---|
| Seqs.Filter | src/components/user-list.tsx:57-68 | `Array.prototype.filter`: keeps exactly the elements passing the test, each with all its occurrences, as an order-preserving subsequence |
| Seqs.SortBy | src/app/api/posts/route.ts:13 | the result is ordered by the key and is a permutation of the input |
| Seqs.SortByMember | src/app/api/messages/conversations/route.ts:29-31 | sorting keeps length and membership |
| Seqs.SortByDistinct | src/app/api/messages/conversations/route.ts:100-102 | sorting keeps distinct ids distinct |
| Text.ToLower | src/components/user-list.tsx:60-61 | lower-casing keeps the length and lower-cases each character |
| Text.ToLowerIdempotent | src/components/user-list.tsx:60-61 | lower-casing twice equals lower-casing once |
| Text.Utf16 | src/components/user-list.tsx:139 | a JavaScript string's code units: as many as characters inside the Basic Multilingual Plane, twice as many above it, between the two otherwise |
| Text.Utf16Append | src/components/user-list.tsx:139 | the code units of a concatenation are those of its parts |
| Text.IncludesIffOccurs | src/components/user-list.tsx:61 | `includes` holds iff the query occurs as a contiguous slice |
| Text.IncludesWithin | src/components/user-list.tsx:61 | a string containing `s` also contains everything `s` contains |
| Text.TrimStart | src/components/chat.tsx:95 | removes exactly the leading whitespace |
| Text.TrimEnd | src/components/chat.tsx:95 | removes exactly the trailing whitespace |
| Text.TrimEmptyIffBlank | src/components/chat.tsx:95 | `trim()` is empty iff every character is whitespace |
| Conversations.CounterpartyIsOtherParty | src/app/api/messages/conversations/route.ts:34-40 | the group key is the message's other party: {sender, receiver} = {me, key} |
| Conversations.MatchStage | src/app/api/messages/conversations/route.ts:20-27 | `$match`: exactly the messages the requester sent or received, each as often as stored, in stored order |
| Conversations.SortStage | src/app/api/messages/conversations/route.ts:28-30 | `$sort`: the same messages, newest first |
| Conversations.GroupStage | src/app/api/messages/conversations/route.ts:31-43 | `$group` with `$first`: never more groups than messages; the GroupStage lemmas below state which groups and which messages |
| Conversations.GroupStageKeys | src/app/api/messages/conversations/route.ts:32-43 | the group stage yields exactly one group per counterparty of the matched messages |
| Conversations.GroupStageDistinct | src/app/api/messages/conversations/route.ts:32-43 | group keys are distinct |
| Conversations.GroupStageFrom | src/app/api/messages/conversations/route.ts:41 | each group's message is one of the input messages and is keyed by its counterparty |
| Conversations.GroupStageLatest | src/app/api/messages/conversations/route.ts:29-41 | on newest-first input, each group holds a message no older than any other with that counterparty |
| Conversations.Project | src/app/api/messages/conversations/route.ts:77-98 | the entry carries the counterparty's id, name and image, and the group's message with the same id, text, read flag, time, sender and receiver |
| Conversations.LookupStage | src/app/api/messages/conversations/route.ts:44-98 | keeps exactly the groups whose counterparty, sender and receiver all have user records, projected |
| Conversations.LookupStageDistinct | src/app/api/messages/conversations/route.ts:44-98 | distinct group keys give distinct entry ids |
| Conversations.Aggregate | src/app/api/messages/conversations/route.ts:19-103 | the whole pipeline: never more entries than the requester's messages, ordered newest last message first |
| Conversations.Get | src/app/api/messages/conversations/route.ts:7-113 | 401 without a session; 500 "Failed to fetch conversations" when the database fails; success iff both are present, with the aggregation's result |
| Conversations.EntriesAreLatestMessages | src/app/api/messages/conversations/route.ts:20-43 | every entry is the projection of a message involving the requester, keyed by its counterparty, carrying that message's id, text, read flag and time, and no older than any other message with them |
| Conversations.OneEntryPerCounterparty | src/app/api/messages/conversations/route.ts:32-40 | at most one entry per counterparty |
| Conversations.EntryExistsIffJoined | src/app/api/messages/conversations/route.ts:44-76 | an entry for k exists iff the requester exchanged a message with k and both have user records |
| Conversations.NewestConversationFirst | src/app/api/messages/conversations/route.ts:100-102 | entries are ordered by `lastMessage.createdAt`, non-increasing |
| Conversations.EntriesCarryUserSummaries | src/app/api/messages/conversations/route.ts:77-98 | `_id`, `name` and `image` come from the counterparty's record; sender and receiver are the joined summaries; the requester is one of them |
| Conversations.NoMessagesNoConversations | src/app/api/messages/conversations/route.ts:20-105 | a requester with no messages gets a successful empty list |
| MessageStore.ListBetween | src/app/api/messages/route.ts:29-37 | the history holds exactly the messages between the two users, each as often as stored, oldest first |
| MessageStore.ValidPostBody | src/app/api/messages/route.ts:62-68 | the body check of `POST`, by definition: `content` and `receiverId` both present and non-empty; `Post` states its effect |
| MessageStore.MessageCollection.Get | src/app/api/messages/route.ts:7-48 | 401 without a session; 400 without a `recipientId`; 500 "Failed to fetch messages" on a database failure; success iff none of these, and then the history between the two users |
| MessageStore.MessageCollection.Post | src/app/api/messages/route.ts:50-90 | 401 and 400 leave the store unchanged; a failed create leaves it unchanged and answers 500; otherwise exactly one message, sent by the session user with the given content and receiver, is appended after the earlier ones |
| MessageStore.MessageCollection.Append | src/app/api/messages/route.ts:71-75 | `Message.create` appends after every stored message |
| MessageStore.ListBetweenSymmetric | src/app/api/messages/route.ts:30-33 | either user of the pair gets the same history |
| MessageStore.AppendedMessageListed | src/app/api/messages/route.ts:71-75 | a new message shows in its pair's history, whichever of the two asks |
| MessageStore.AppendKeepsOtherHistories | src/app/api/messages/route.ts:71-75 | after a new message, every other pair's history holds the same messages, each as often as before |
| PostSchema.MissingPaths | src/models/Post.ts:4-22 | a required path is reported iff it is absent (for strings: absent or empty); none is reported iff the post is valid |
| PostSchema.Create | src/models/Post.ts:3-33 | succeeds iff no required path fails, and otherwise throws a `ValidationError`; keeps the given fields; `likes` defaults to 0, `images` and `comments` to empty; both timestamps are the creation time |
| PostSchema.LikesDefaultToZero | src/models/Post.ts:23-26 | a valid post created without `likes` has 0 likes |
| PostSchema.PathMessagesName | src/models/Post.ts:4-22 | the validation text names every failing path |
| PostSchema.MissingFieldRejected | src/models/Post.ts:4-22 | a post lacking `title`, `content`, `author` or `skill` is rejected with a `ValidationError` whose message names that path |
| PostsRoute.FormGet | src/app/api/posts/route.ts:39-42 | `formData.get` returns the value of the first entry with that name, or null iff there is none |
| PostsRoute.FieldsPresent | src/app/api/posts/route.ts:39-49 | the field check of `POST`, by definition: `title`, `content` and `skillId` read as non-empty texts; `CheckedFieldsValidate` and `SentFormFieldsChecked` state what it guarantees |
| PostsRoute.ImagesFor | src/app/api/posts/route.ts:52-59 | `images` is `['/placeholder-image.jpg']` iff an image was supplied, `[]` otherwise, never longer than one |
| PostsRoute.CreateErrorResponse | src/app/api/posts/route.ts:68-83 | a `ValidationError` maps to 400 "Invalid data provided" and anything else to 500 "Failed to create post", both carrying the error message as `details` |
| PostsRoute.CheckedFieldsValidate | src/app/api/posts/route.ts:44-60 | fields that pass the route's check always pass the schema; the post gets the session user as author, the submitted skill, 0 likes and at most one image |
| PostsRoute.PostCollection.GetPosts | src/app/api/posts/route.ts:7-24 | every stored post, newest first (a permutation of the store); 500 on a database failure |
| PostsRoute.PostCollection.Append | src/app/api/posts/route.ts:54-60 | `Post.create` appends after every stored post |
| PostsRoute.PostCollection.HandlePost | src/app/api/posts/route.ts:26-84 | 401 without a session; a failed connect, missing fields (400) or a failed write create nothing, a failed write answering through the error mapping; with a session, a connection, the fields and a successful write exactly one post is appended, carrying the form's title, content and skill, the session user as author, the images rule, 0 likes and the creation time; the reply is that post iff reading it back succeeds |
| UserList.SearchedSkills | src/components/user-list.tsx:62-64 | the searched skills are those to share, then those to learn, an absent array counting as empty |
| UserList.SomeSkillMatches | src/components/user-list.tsx:62-65 | `some` holds iff some skill's lower-cased name includes the query |
| UserList.Matches | src/components/user-list.tsx:57-68 | the filter test, by definition: an empty query passes, otherwise the lower-cased name or a lower-cased skill name must include the lower-cased query; `MatchesIffMentions` characterises it |
| UserList.FilterUsers | src/components/user-list.tsx:57-68 | keeps exactly the matching users, as an order-preserving subsequence |
| UserList.MatchesIffMentions | src/components/user-list.tsx:58-67 | a user is kept iff the query is empty or occurs, ignoring ASCII case, in the name or in one of the skill names |
| UserList.EmptyQueryKeepsAll | src/components/user-list.tsx:58 | an empty query keeps every user in order |
| UserList.MissingSkillsSearchNameOnly | src/components/user-list.tsx:63-64 | a user without skill arrays is matched on the name alone |
| UserList.QueryCaseIgnored | src/components/user-list.tsx:60 | a query and its lower-cased form keep the same users |
| UserList.BioLine | src/components/user-list.tsx:139 | counted, as `slice` counts, in UTF-16 code units: a non-empty bio shows its first 60 code units plus "..."; an absent or empty one shows "No bio available" |
| UserList.ShortBioShownWhole | src/components/user-list.tsx:139 | a bio of at most 60 code units is shown whole, followed by "..." |
| UserList.BmpBioCountsCharacters | src/components/user-list.tsx:139 | for text inside the Basic Multilingual Plane the cut falls after 60 characters, and a bio of at most 60 characters is shown whole |
| UserList.AstralBioCut | src/components/user-list.tsx:139 | a bio of more than 30 characters above the Basic Multilingual Plane (emoji) is cut, though it has at most 60 characters |
| UserList.CutSplitsSurrogatePair | src/components/user-list.tsx:139 | the cut can split a surrogate pair: after 59 characters of the Basic Multilingual Plane an emoji leaves only its high surrogate |
| UserList.FetchedUsers | src/components/user-list.tsx:37-45 | users are delivered iff the response is ok and its body is an array, and they are exactly that array |
| UserList.FetchError | src/components/user-list.tsx:36-48 | the error text is set iff no users are delivered: "Failed to fetch users" for a response that is not ok, "Invalid data format received" for a non-array, otherwise what was thrown |
| UserList.ScreenOf | src/components/user-list.tsx:75-116 | skeleton iff loading; the error iff not loading and the error text is non-empty; "No users found" iff neither and the filtered list is empty; otherwise the filtered cards |
| UserList.UserListState.FetchUsers | src/components/user-list.tsx:35-52 | users are replaced only on success, the error text is set only on failure, and `loading` ends false on every path |
| UserList.UserListState.OpenChat | src/components/user-list.tsx:70-73 | the message button selects that user and changes nothing else |
| UserList.UserListState.CloseChat | src/components/user-list.tsx:186 | closing the chat clears the selection and changes nothing else |
| UserList.FirstFetchScreen | src/components/user-list.tsx:35-116 | after the first fetch: a failure with a non-empty text shows that text; a success shows the matching users or "No users found" |
| UserList.EmptyErrorMessageShowsNoUsers | src/components/user-list.tsx:47-116 | an `Error` with an empty message leaves no error text, so "No users found" shows instead of an error |
| PostsPage.BuildForm | src/app/posts/page.tsx:82-88 | the form holds `title`, `content` and `skillId`, and an `image` entry iff an image is selected |
| PostsPage.SentFormFieldsChecked | src/app/posts/page.tsx:82-88 | the sent form passes the route's field check iff title, content and skill are all non-empty |
| PostsPage.SentFormImage | src/app/posts/page.tsx:86-88 | the route sees an image, and stores the placeholder, iff one was selected |
| PostsPage.RefusalMessage | src/app/posts/page.tsx:95-98 | `errorData.error`, else `errorData.details`, else "Failed to create post"; never empty |
| PostsPage.CaughtCreateText | src/app/posts/page.tsx:109-111 | `err.message`, else "Failed to create post. Please try again." |
| PostsPage.CreateErrorText | src/app/posts/page.tsx:95-111 | an error text is produced iff the post was not created; for a refusal it is the caught refusal message, for a thrown error the caught text of that error; never empty |
| PostsPage.WithoutPost | src/app/posts/page.tsx:125 | removes exactly the posts with that `_id`, keeps the others in order with their multiplicity |
| PostsPage.DeleteAbsentKeepsAll | src/app/posts/page.tsx:125 | deleting an id no post has changes nothing |
| PostsPage.DeleteIdempotent | src/app/posts/page.tsx:125 | deleting twice equals deleting once |
| PostsPage.PostsPageState.HandleCreatePost | src/app/posts/page.tsx:78-113 | sends the built form; on success the new post goes in front of the unchanged list, the modal closes and the form is cleared; on failure the list, modal and form stay and the error text is set |
| PostsPage.PostsPageState.HandleDeletePost | src/app/posts/page.tsx:115-130 | a confirmed delete removes the posts with that id; a failed one leaves the list and sets "Failed to delete post. Please try again." |
| PostsPage.PostsPageState.HandleMessageAuthor | src/app/posts/page.tsx:132-134 | selects the author for the chat and changes nothing else |
| PostsPage.OwnerControlsAsWritten | src/app/posts/page.tsx:287 | the owner test as the page writes it, by definition: the session user's email equals the author's id |
| PostsPage.AuthorDeniedControlsAsWritten | src/app/posts/page.tsx:287 | as written, an author whose email differs from their id never gets the controls on their own post, though the server allows the delete |
| PostsPage.AsWrittenCounterexample | src/app/posts/page.tsx:287 | a concrete session and post on which the written test and the server disagree |
| PostsPage.ControlsFor | src/app/posts/page.tsx:287-312 | edit and delete controls show iff the server would accept a delete from the session user; a message button shows otherwise |
| Chat.BlankTextBlocks | src/components/chat.tsx:95 | with a socket and a session user, a send is blocked iff the text is all whitespace |
| Chat.SendBlocked | src/components/chat.tsx:95 | the send guard, by definition: a blank text after `trim`, no socket, or no session user id; `BlankTextBlocks` and `HandleSendMessage` state its effect |
| Chat.SentRequestAccepted | src/components/chat.tsx:95-107 | a non-blank text sent to a recipient passes the messages route's body check iff the recipient id is non-empty |
| Chat.Bubbles | src/components/chat.tsx:153-172 | one bubble per message, in order, right-aligned iff its sender is the session user |
| Chat.NoSessionAllLeft | src/components/chat.tsx:157 | without a session user every bubble is on the left |
| Chat.ChatView | src/components/chat.tsx:126-199 | nothing renders until the recipient has loaded; afterwards the recipient and the bubbles render |
| Chat.ChatWindow.ReceivePrivateMessage | src/components/chat.tsx:48-50 | an incoming message is appended and earlier ones are kept |
| Chat.ChatWindow.LoadConversation | src/components/chat.tsx:57-86 | nothing loads for an empty recipient id; otherwise a delivered recipient is stored and a delivered history replaces the messages |
| Chat.ChatWindow.HandleSendMessage | src/components/chat.tsx:93-124 | a blocked send sends nothing and changes nothing; otherwise the untrimmed text goes to the recipient, and on success the returned message is appended and the input cleared, while on failure nothing changes |
| Chat.ChatWindow.ConnectSocket | src/components/chat.tsx:39-40 | the socket is set and nothing else changes |
| Chat.ChatWindow.EditInput | src/components/chat.tsx:184 | typing replaces the input text and nothing else |
| MessagesPage.FromConversation | src/app/messages/page.tsx:25-30 | a route entry becomes a row with its id, name, image and last message |
| MessagesPage.SessionUserId | src/app/messages/page.tsx:103 | `session?.user?.id`: the user's id when there is a session user, and absent otherwise |
| MessagesPage.ShowsUnreadDot | src/app/messages/page.tsx:103 | the unread dot, by definition: a last message that is unread and was received by the session user; `RouteEntryDot` and `SentMessageNoDot` state what it means for route entries |
| MessagesPage.SentMessageNoDot | src/app/messages/page.tsx:103 | a last message the user sent to someone else never shows the unread dot |
| MessagesPage.RouteEntryDot | src/app/messages/page.tsx:103 | for an entry from the conversations route, the dot shows iff its latest message is unread and was received by the requester |
| MessagesPage.RowOf | src/app/messages/page.tsx:81-107 | a row shows the name, the last message's text iff there is one, and the dot iff the unread test holds |
| MessagesPage.Rows | src/app/messages/page.tsx:81 | one row per entry, in order |
| MessagesPage.ScreenOf | src/app/messages/page.tsx:57-113 | skeleton iff loading; otherwise the rows, with the dot judged against `session?.user?.id`, and the "No conversations yet" notice iff there are none |
| MessagesPage.MessagesPageState.SessionChanged | src/app/messages/page.tsx:38-55 | fetches iff there is a session user; after a fetch, successful or not, `loading` is false; without a session user nothing changes |
| MessagesPage.MessagesPageState.Select | src/app/messages/page.tsx:84 | clicking a row selects that user |
| MessagesPage.MessagesPageState.CloseChat | src/app/messages/page.tsx:121 | closing the chat clears the selection |
| UsersRoute.WithoutPassword | src/app/api/users/route.ts:10-34 | the document loses `password` and keeps every other field with its value |
| UsersRoute.Resolve | src/app/api/users/route.ts:11-12 | populating keeps exactly the documents of the stored references, never more than the references, and with every reference stored it replaces each one in place |
| UsersRoute.ResolveInOrder | src/app/api/users/route.ts:11-12 | the resolved documents are those of the references naming a stored skill, in the order of those references |
| UsersRoute.PopulatePath | src/app/api/users/route.ts:11-12 | populating one path changes only that path, and only when it holds references |
| UsersRoute.Listed | src/app/api/users/route.ts:9-13 | a listed user has no password; every other field is present iff stored, and is unchanged unless it is a skill list |
| UsersRoute.ListAll | src/app/api/users/route.ts:9-14 | one listed document per stored user, in order |
| UsersRoute.Get | src/app/api/users/route.ts:5-24 | success with exactly the listed form of every stored user, in order (so none carries a password, and both skill lists are populated); 500 "Failed to fetch users" on a database failure |
| UsersRoute.ListedSkillsResolved | src/app/api/users/route.ts:11-12 | every stored skill a user's list references appears in the listed user's populated list |
| UsersRoute.PlainObject.Delete | src/app/api/users/route.ts:34 | `delete` removes that one field |
| UsersRoute.Post | src/app/api/users/route.ts:26-44 | success iff connecting, reading the body and creating all succeed, and then the created document without its password; 500 "Failed to create user" otherwise |

## Left out

- Mongoose `populate`: the message route and the posts route return messages and posts as
  stored, with references as ids. The conversations aggregation and the users route do model
  their joins.
- MongoDB leaves the order of equal sort keys unspecified. The model sorts stably, keeping
  stored order among ties. Most lemmas only claim what holds for every tie order: the maximum
  `createdAt` per counterparty, ordered output, and the messages a history holds.
- `MessageStore.ListBetweenSymmetric`: its equality of the two sequences relies on the model's
  stable tie order. For every tie order the two histories hold the same messages, each as often,
  and are both ordered oldest first.
- Id types: ids are compared as strings throughout. ObjectId casting is not modelled, including
  whether the aggregation's `$match` against a string session id casts at all. The skill id the
  posts route stores is not checked to be a valid ObjectId.
- The message schema (`read` default, any of its validation) is not part of this model.
  `Message.create` supplies the id, the `read` flag and the timestamp as a `Stamp` input. The
  user schema behind `User.create` is a function parameter of `UsersRoute.Post`.
- The socket client (`io`, `join`, `emit`, `disconnect`), the scroll effect, the recipient and
  skill fetches' console logging, and all JSX markup other than the branch and row contents
  named above: these are network, DOM, or presentation.
- `PostsRoute.PostCollection.HandlePost`: a file uploaded under `title`, `content` or `skillId`
  is treated as a missing field (400 "Missing required fields"). In the source a file passes the
  truthiness check and fails the schema's string cast instead, which is also a 400, with a
  different message.
- `PostsRoute.PostCollection.HandlePost`: `session.user.id` is taken to be present. A session
  without an id is not modelled.
- `MessageStore.MessageCollection.Post`: a request body that is not JSON (a throw of
  `req.json()`, answered 500) is not a separate case. The body's fields arrive already parsed as
  optional strings.
- `Chat.ChatWindow.HandleSendMessage`: one atomic step. In the source the input is cleared only
  after the request and its body have been awaited, so text typed while the send is pending is
  erased. The model cannot interleave an edit with a pending send, so it does not show that
  loss.
- `PostsPage.PostsPageState.HandleCreatePost`: one atomic step. In the source the form is reset
  after the create has been awaited, so edits made to the form while it is pending are erased,
  and those edits are not in the form already sent. The model does not interleave them.
- `Chat.ChatWindow.LoadConversation`: the two fetches race in the source. The model applies
  both results in one step, so it does not interleave the history fetch with incoming socket
  messages.
- The posts page's initial `fetchSkills` and `fetchPosts` effects are not modelled. The page's
  list state starts empty.
- Unicode case folding: `toLowerCase` is modelled on ASCII letters only. Date formatting is
  left out, and timestamps are integers.
- String units: strings are sequences of Unicode characters. Only the bio line counts lengths,
  so only it is modelled in UTF-16 code units, as JavaScript counts them. `includes`, `trim` and
  the emptiness tests give the same answers on either view. A received string holding a lone
  surrogate has no counterpart in the model.
- Image upload: the stored image is the placeholder string only, as in the source.

## Findings

| source | as written | input that shows it | evidently intended | confidence | as-written member | corrected member |
|---|---|---|---|---|---|---|
| src/app/posts/page.tsx:287 | the edit and delete controls show when `session.user.email === post.author._id`, comparing an email with a user id | a user with id `u1` and email `a@b.c` viewing their own post (author `u1`): the page shows a message button, though the delete route (`src/app/api/posts/[id]/route.ts:31`) accepts that user's delete | compare `session.user.id` with `post.author._id`, the test the delete route applies | high; not executed | PostsPage.AsWrittenCounterexample | PostsPage.ControlsFor |
