/** `GET /api/messages/conversations`: the aggregation that lists, for the signed-in user, one
    entry per counterparty with the latest message exchanged with them.

    The pipeline is modelled stage by stage:
      match   -> MatchStage   (messages the requester sent or received)
      sort    -> SortStage    (newest first)
      group   -> GroupStage   (one group per counterparty, holding its first message)
      lookup, unwind, project -> LookupStage (join user summaries; drop groups that do not join)
      sort    -> the final SortBy in Aggregate (newest last message first) */
module Conversations {
  import opened Wrappers
  import opened Http
  import opened Seqs
  import opened Messages

  /** The projected `lastMessage`: the message with its sender and receiver joined. */
  datatype LastMessage = LastMessage(
    id: MessageId,
    content: string,
    read: bool,
    createdAt: int,
    sender: Party,
    receiver: Party)

  /** One entry of the reply: the counterparty's summary and the latest message with them. */
  datatype Conversation = Conversation(
    id: UserId,
    name: string,
    image: Option<string>,
    lastMessage: LastMessage)

  /** The two collections the aggregation reads. */
  datatype Collections = Collections(messages: seq<Message>, users: Users)

  /** The output of the group stage: `{ _id: counterparty, lastMessage: $first }`. */
  datatype Group = Group(key: UserId, lastMessage: Message)

  /** The match stage's condition: the requester is the sender or the receiver. */
  predicate Involves(me: UserId, m: Message) {
    m.sender == me || m.receiver == me
  }

  /** The group key: the receiver when the requester sent the message, the sender otherwise. */
  function Counterparty(me: UserId, m: Message): UserId {
    if m.sender == me then m.receiver else m.sender
  }

  /** A message involving the requester is between the requester and its counterparty. */
  lemma CounterpartyIsOtherParty(me: UserId, m: Message)
    requires Involves(me, m)
    ensures {m.sender, m.receiver} == {me, Counterparty(me, m)}
  {
  }

  function GroupKey(g: Group): UserId {
    g.key
  }

  function ConversationId(c: Conversation): UserId {
    c.id
  }

  /** Sort key of the final stage: the latest last message first. */
  function LatestFirst(c: Conversation): int {
    -c.lastMessage.createdAt
  }

  /** Stage 1, `$match`: the messages the requester sent or received, each as often as
      stored, in stored order. */
  function MatchStage(me: UserId, messages: seq<Message>): (r: seq<Message>)
    ensures forall m :: m in r <==> m in messages && Involves(me, m)
    ensures forall m :: multiset(r)[m] == if Involves(me, m) then multiset(messages)[m] else 0
    ensures IsSubsequence(r, messages)
  {
    Filter(messages, (m: Message) => Involves(me, m))
  }

  /** Stage 2, `$sort: { createdAt: -1 }`: the same messages, newest first. */
  function SortStage(messages: seq<Message>): (r: seq<Message>)
    ensures forall i, j :: 0 <= i < j < |r| ==> r[i].createdAt >= r[j].createdAt
    ensures multiset(r) == multiset(messages)
  {
    SortBy(messages, NewestFirst)
  }

  /** Stage 3, `$group` with `$first`: scanning the sorted messages in order, the first message
      seen for each counterparty opens that counterparty's group; `seen` holds the counterparties
      whose group is already open. */
  function GroupStage(me: UserId, s: seq<Message>, seen: set<UserId>): (r: seq<Group>)
    ensures |r| <= |s|
  {
    if s == [] then []
    else
      var k := Counterparty(me, s[0]);
      if k in seen then GroupStage(me, s[1..], seen)
      else [Group(k, s[0])] + GroupStage(me, s[1..], seen + {k})
  }

  /** The counterparties that have a group in `gs`. */
  function GroupKeys(gs: seq<Group>): set<UserId> {
    if gs == [] then {} else {gs[0].key} + GroupKeys(gs[1..])
  }

  /** Each group is for a counterparty not yet seen and holds one of the scanned messages with
      that counterparty. */
  lemma {:induction false} GroupStageFrom(me: UserId, s: seq<Message>, seen: set<UserId>)
    ensures forall g :: g in GroupStage(me, s, seen) ==>
      g.key !in seen && g.lastMessage in s && Counterparty(me, g.lastMessage) == g.key
  {
    if s != [] {
      var k := Counterparty(me, s[0]);
      var seen' := if k in seen then seen else seen + {k};
      GroupStageFrom(me, s[1..], seen');
      assert forall m :: m in s[1..] ==> m in s;
    }
  }

  /** The keys of the groups are exactly the counterparties of the scanned messages that were
      not seen before. */
  lemma {:induction false} GroupStageKeys(me: UserId, s: seq<Message>, seen: set<UserId>)
    ensures GroupKeys(GroupStage(me, s, seen)) == (set m | m in s :: Counterparty(me, m)) - seen
  {
    if s != [] {
      var k := Counterparty(me, s[0]);
      var seen' := if k in seen then seen else seen + {k};
      GroupStageKeys(me, s[1..], seen');
      assert s == [s[0]] + s[1..];
      assert (set m | m in s :: Counterparty(me, m)) == {k} + (set m | m in s[1..] :: Counterparty(me, m));
    }
  }

  /** No two groups share a counterparty. */
  lemma {:induction false} GroupStageDistinct(me: UserId, s: seq<Message>, seen: set<UserId>)
    ensures DistinctBy(GroupStage(me, s, seen), GroupKey)
  {
    if s != [] {
      var k := Counterparty(me, s[0]);
      if k in seen {
        GroupStageDistinct(me, s[1..], seen);
      } else {
        var rest := GroupStage(me, s[1..], seen + {k});
        GroupStageDistinct(me, s[1..], seen + {k});
        GroupStageFrom(me, s[1..], seen + {k});
        forall j | 0 <= j < |rest| ensures rest[j].key != k {
          assert rest[j] in rest;
        }
        var gs := [Group(k, s[0])] + rest;
        forall i, j | 0 <= i < j < |gs| ensures GroupKey(gs[i]) != GroupKey(gs[j]) {
          if i > 0 {
            assert gs[i] == rest[i - 1] && gs[j] == rest[j - 1];
          }
        }
      }
    }
  }

  /** A key in `GroupKeys(gs)` belongs to some group of `gs`. */
  lemma GroupWithKey(gs: seq<Group>, k: UserId) returns (g: Group)
    requires k in GroupKeys(gs)
    ensures g in gs && g.key == k
  {
    if gs[0].key == k {
      g := gs[0];
    } else {
      g := GroupWithKey(gs[1..], k);
    }
  }

  /** The lookup stages succeed: the counterparty, the sender and the receiver each have a
      user record (otherwise `$unwind` drops the group). */
  predicate Joins(users: Users, g: Group) {
    g.key in users && g.lastMessage.sender in users && g.lastMessage.receiver in users
  }

  /** The entry's last message is the stored message `m`: the same id, text, read flag and
      time, between the same two users. */
  predicate CopiesMessage(l: LastMessage, m: Message) {
    l.id == m.id && l.content == m.content && l.read == m.read && l.createdAt == m.createdAt &&
    l.sender.id == m.sender && l.receiver.id == m.receiver
  }

  /** The `$project` stage applied to a group that joins: the counterparty's summary, and the
      group's message with its sender and receiver joined. */
  function Project(users: Users, g: Group): (c: Conversation)
    requires Joins(users, g)
    ensures c.id == g.key && c.name == users[g.key].name && c.image == users[g.key].image
    ensures CopiesMessage(c.lastMessage, g.lastMessage)
  {
    var m := g.lastMessage;
    Conversation(
      g.key, users[g.key].name, users[g.key].image,
      LastMessage(m.id, m.content, m.read, m.createdAt,
                  PartyOf(users, m.sender), PartyOf(users, m.receiver)))
  }

  /** Stages 4 to 10: the three `$lookup`s, the three `$unwind`s and `$project`. */
  function LookupStage(users: Users, gs: seq<Group>): (r: seq<Conversation>)
    ensures |r| <= |gs|
    ensures forall c :: c in r ==> exists g :: g in gs && Joins(users, g) && c == Project(users, g)
    ensures forall g :: g in gs && Joins(users, g) ==> Project(users, g) in r
  {
    if gs == [] then []
    else
      assert gs == [gs[0]] + gs[1..];
      var rest := LookupStage(users, gs[1..]);
      if Joins(users, gs[0]) then [Project(users, gs[0])] + rest else rest
  }

  /** Groups with distinct keys give entries with distinct ids. */
  lemma {:induction false} LookupStageDistinct(users: Users, gs: seq<Group>)
    requires DistinctBy(gs, GroupKey)
    ensures DistinctBy(LookupStage(users, gs), ConversationId)
  {
    if gs != [] {
      assert DistinctBy(gs[1..], GroupKey) by {
        forall i, j | 0 <= i < j < |gs[1..]| ensures gs[1..][i].key != gs[1..][j].key {
          assert gs[1..][i] == gs[i + 1] && gs[1..][j] == gs[j + 1];
        }
      }
      LookupStageDistinct(users, gs[1..]);
      var rest := LookupStage(users, gs[1..]);
      if Joins(users, gs[0]) {
        forall j | 0 <= j < |rest| ensures rest[j].id != gs[0].key {
          assert rest[j] in rest;
          var g :| g in gs[1..] && Joins(users, g) && rest[j] == Project(users, g);
          var i :| 0 <= i < |gs[1..]| && gs[1..][i] == g;
          assert gs[i + 1] == g;
        }
        var r := [Project(users, gs[0])] + rest;
        forall i, j | 0 <= i < j < |r| ensures r[i].id != r[j].id {
          if i > 0 { assert r[i] == rest[i - 1]; }
          assert r[j] == rest[j - 1];
        }
      }
    }
  }

  /** The whole pipeline, for the requester `me`: never more entries than the requester has
      messages, ordered by the last message, newest first. */
  function Aggregate(me: UserId, db: Collections): (r: seq<Conversation>)
    ensures |r| <= |MatchStage(me, db.messages)|
    ensures SortedBy(r, LatestFirst)
  {
    var sorted := SortStage(MatchStage(me, db.messages));
    assert |sorted| == |multiset(sorted)| == |MatchStage(me, db.messages)|;
    var joined := LookupStage(db.users, GroupStage(me, sorted, {}));
    var r := SortBy(joined, LatestFirst);
    assert |r| == |multiset(r)| == |joined|;
    r
  }

  /** The handler: 401 without a session (no query runs), 500 when the database fails, the
      aggregation's result otherwise. */
  function Get(session: Option<UserId>, db: Outcome<Collections>): (r: Response<seq<Conversation>>)
    ensures session.None? ==> r == Unauthorized()
    ensures session.Some? && db.Fails? ==>
      r == Failure(StatusServerError, ErrorBody("Failed to fetch conversations", None))
    ensures r.Success? <==> session.Some? && db.Yields?
    ensures r.Success? ==> r.body == Aggregate(session.value, db.value)
  {
    match session
    case None => Unauthorized()
    case Some(me) =>
      match db
      case Fails(_) => Failure(StatusServerError, ErrorBody("Failed to fetch conversations", None))
      case Yields(collections) => Success(Aggregate(me, collections))
  }

  // ---------------------------------------------------------------------------------------------
  // What the stages guarantee

  /** The group stage over messages sorted newest first picks, for each counterparty, a message
      no older than any other message with that counterparty. */
  lemma {:induction false} GroupStageLatest(me: UserId, s: seq<Message>, seen: set<UserId>)
    requires SortedBy(s, NewestFirst)
    ensures forall g, m :: g in GroupStage(me, s, seen) && m in s && Counterparty(me, m) == g.key ==>
      m.createdAt <= g.lastMessage.createdAt
  {
    if s != [] {
      assert s == [s[0]] + s[1..];
      var k := Counterparty(me, s[0]);
      var seen' := if k in seen then seen else seen + {k};
      assert SortedBy(s[1..], NewestFirst) by {
        forall i, j | 0 <= i < j < |s[1..]| ensures NewestFirst(s[1..][i]) <= NewestFirst(s[1..][j]) {
          assert s[1..][i] == s[i + 1] && s[1..][j] == s[j + 1];
        }
      }
      GroupStageLatest(me, s[1..], seen');
      GroupStageFrom(me, s[1..], seen');
      var rest := GroupStage(me, s[1..], seen');
      forall g, m | g in GroupStage(me, s, seen) && m in s && Counterparty(me, m) == g.key
        ensures m.createdAt <= g.lastMessage.createdAt
      {
        var j :| 0 <= j < |s| && s[j] == m;
        if g in rest {
          assert g.key !in seen' && k in seen';
          assert j > 0;
          assert m in s[1..];
        } else {
          assert g == Group(k, s[0]);
          if j > 0 {
            assert NewestFirst(s[0]) <= NewestFirst(s[j]);
          }
        }
      }
    }
  }

  /** A message is in the sorted match output exactly when it is stored and involves `me`. */
  lemma SortedMatchMembers(me: UserId, messages: seq<Message>, m: Message)
    ensures m in SortStage(MatchStage(me, messages)) <==> m in messages && Involves(me, m)
  {
    SortByMember(MatchStage(me, messages), NewestFirst, m);
  }

  // ---------------------------------------------------------------------------------------------
  // What the reply guarantees

  /** `c` is the projection of a message `m` between `me` and `c.id` that is no older than any
      other stored message between them. */
  ghost predicate IsLatestEntry(me: UserId, db: Collections, c: Conversation) {
    exists m :: m in db.messages && Involves(me, m) && Counterparty(me, m) == c.id &&
      Joins(db.users, Group(c.id, m)) && c == Project(db.users, Group(c.id, m)) &&
      CopiesMessage(c.lastMessage, m) &&
      forall m' :: m' in db.messages && Involves(me, m') && Counterparty(me, m') == c.id ==>
        m'.createdAt <= m.createdAt
  }

  /** Some stored message is between `me` and `k`. */
  ghost predicate HasExchangedWith(me: UserId, messages: seq<Message>, k: UserId) {
    exists m :: m in messages && Involves(me, m) && Counterparty(me, m) == k
  }

  /** Some entry of `r` is for the counterparty `k`. */
  ghost predicate HasEntry(r: seq<Conversation>, k: UserId) {
    exists c :: c in r && c.id == k
  }

  /** Every entry's last message has the requester as sender or receiver, is keyed by the other
      party, joins the user summaries, and is the latest message with that counterparty. */
  lemma EntriesAreLatestMessages(me: UserId, db: Collections)
    ensures forall c :: c in Aggregate(me, db) ==> IsLatestEntry(me, db, c)
  {
    var s := SortStage(MatchStage(me, db.messages));
    var gs := GroupStage(me, s, {});
    var l := LookupStage(db.users, gs);
    GroupStageLatest(me, s, {});
    GroupStageFrom(me, s, {});
    forall c | c in Aggregate(me, db) ensures IsLatestEntry(me, db, c) {
      SortByMember(l, LatestFirst, c);
      var g :| g in gs && Joins(db.users, g) && c == Project(db.users, g);
      var m := g.lastMessage;
      SortedMatchMembers(me, db.messages, m);
      assert g == Group(c.id, m);
      forall m' | m' in db.messages && Involves(me, m') && Counterparty(me, m') == c.id
        ensures m'.createdAt <= m.createdAt
      {
        SortedMatchMembers(me, db.messages, m');
      }
    }
  }

  /** At most one entry per counterparty. */
  lemma OneEntryPerCounterparty(me: UserId, db: Collections)
    ensures DistinctBy(Aggregate(me, db), ConversationId)
  {
    var s := SortStage(MatchStage(me, db.messages));
    var gs := GroupStage(me, s, {});
    GroupStageDistinct(me, s, {});
    LookupStageDistinct(db.users, gs);
    SortByDistinct(LookupStage(db.users, gs), LatestFirst, ConversationId);
  }

  /** An entry for `k` exists exactly when the requester exchanged a message with `k` and both
      the requester and `k` have user records; a counterparty without one is omitted, and so is
      every entry when the requester has no user record. */
  lemma EntryExistsIffJoined(me: UserId, db: Collections, k: UserId)
    ensures HasEntry(Aggregate(me, db), k) <==>
      k in db.users && me in db.users && HasExchangedWith(me, db.messages, k)
  {
    var s := SortStage(MatchStage(me, db.messages));
    var gs := GroupStage(me, s, {});
    var l := LookupStage(db.users, gs);
    var r := Aggregate(me, db);
    GroupStageFrom(me, s, {});
    if HasEntry(r, k) {
      var c :| c in r && c.id == k;
      SortByMember(l, LatestFirst, c);
      var g :| g in gs && Joins(db.users, g) && c == Project(db.users, g);
      SortedMatchMembers(me, db.messages, g.lastMessage);
      CounterpartyIsOtherParty(me, g.lastMessage);
      assert me in {g.lastMessage.sender, g.lastMessage.receiver};
    }
    if k in db.users && me in db.users && HasExchangedWith(me, db.messages, k) {
      var m :| m in db.messages && Involves(me, m) && Counterparty(me, m) == k;
      SortedMatchMembers(me, db.messages, m);
      GroupStageKeys(me, s, {});
      var g := GroupWithKey(gs, k);
      SortedMatchMembers(me, db.messages, g.lastMessage);
      CounterpartyIsOtherParty(me, g.lastMessage);
      assert Joins(db.users, g);
      SortByMember(l, LatestFirst, Project(db.users, g));
      assert Project(db.users, g) in r;
    }
  }

  /** The reply is ordered by the last message's timestamp, newest first. */
  lemma NewestConversationFirst(me: UserId, db: Collections)
    ensures forall i, j :: 0 <= i < j < |Aggregate(me, db)| ==>
      Aggregate(me, db)[i].lastMessage.createdAt >= Aggregate(me, db)[j].lastMessage.createdAt
  {
    var r := Aggregate(me, db);
    assert SortedBy(r, LatestFirst);
    forall i, j | 0 <= i < j < |r| ensures r[i].lastMessage.createdAt >= r[j].lastMessage.createdAt {
      assert LatestFirst(r[i]) <= LatestFirst(r[j]);
    }
  }

  /** Each entry's `_id`, `name` and `image` come from the counterparty's user record, and its
      last message's `sender` and `receiver` are the joined summaries of those users. */
  lemma EntriesCarryUserSummaries(me: UserId, db: Collections)
    ensures forall c :: c in Aggregate(me, db) ==>
      && c.id in db.users && c.name == db.users[c.id].name && c.image == db.users[c.id].image
      && c.lastMessage.sender.id in db.users
      && c.lastMessage.sender == PartyOf(db.users, c.lastMessage.sender.id)
      && c.lastMessage.receiver.id in db.users
      && c.lastMessage.receiver == PartyOf(db.users, c.lastMessage.receiver.id)
      && (c.lastMessage.sender.id == me || c.lastMessage.receiver.id == me)
      && c.id == (if c.lastMessage.sender.id == me then c.lastMessage.receiver.id
                  else c.lastMessage.sender.id)
  {
    EntriesAreLatestMessages(me, db);
  }

  /** A requester who sent and received nothing gets an empty list, not an error. */
  lemma NoMessagesNoConversations(me: UserId, db: Collections)
    requires forall m :: m in db.messages ==> !Involves(me, m)
    ensures Get(Some(me), Yields(db)) == Success([])
  {
    EntriesAreLatestMessages(me, db);
  }
}
