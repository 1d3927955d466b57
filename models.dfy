/**
 * The two tables of the store and the rules they obey: auto-increment ids
 * that are never reused, creation stamps, the message-to-conversation
 * foreign key, the not-null columns, and cascade deletion.
 */
module Models {
  import opened Wrappers
  import opened Js
  import opened Stage1Analyzer

  /** A Conversation row: `userId` and `username` are nullable, `aiType` is any string. */
  datatype Conversation = Conversation(
    id: int,
    userId: Option<int>,
    aiType: string,
    username: Option<string>,
    createdAt: nat,
    updatedAt: nat)

  /** A Message row: `conversationId`, `role` and `text` are required, `analysis` is nullable. */
  datatype Message = Message(
    id: int,
    conversationId: int,
    role: string,
    text: string,
    analysis: Option<Analysis>,
    createdAt: nat,
    updatedAt: nat)

  /** The contents of the store; `clock` is the stamp the next insert receives. */
  datatype Tables = Tables(
    conversations: seq<Conversation>,
    messages: seq<Message>,
    nextConversationId: int,
    nextMessageId: int,
    clock: nat)

  const EmptyTables := Tables([], [], 1, 1, 0)

  /** The column default of `aiType`. */
  const DefaultAiType := "companion"

  function ConversationIds(cs: seq<Conversation>): set<int> {
    set i | 0 <= i < |cs| :: cs[i].id
  }

  /** Rows in insertion order carry increasing ids and stamps below the counters. */
  predicate ConversationsOrdered(cs: seq<Conversation>, nextId: int, clock: nat) {
    && (forall i :: 0 <= i < |cs| ==>
          0 < cs[i].id < nextId && cs[i].createdAt < clock && cs[i].updatedAt == cs[i].createdAt)
    && (forall i, j :: 0 <= i < j < |cs| ==> cs[i].id < cs[j].id && cs[i].createdAt < cs[j].createdAt)
  }

  predicate MessagesOrdered(ms: seq<Message>, nextId: int, clock: nat) {
    && (forall i :: 0 <= i < |ms| ==>
          0 < ms[i].id < nextId && ms[i].createdAt < clock && ms[i].updatedAt == ms[i].createdAt)
    && (forall i, j :: 0 <= i < j < |ms| ==> ms[i].id < ms[j].id && ms[i].createdAt < ms[j].createdAt)
  }

  /** Every message belongs to a conversation that exists. */
  predicate ForeignKeysHold(cs: seq<Conversation>, ms: seq<Message>) {
    forall i :: 0 <= i < |ms| ==> ms[i].conversationId in ConversationIds(cs)
  }

  predicate Consistent(t: Tables) {
    && ConversationsOrdered(t.conversations, t.nextConversationId, t.clock)
    && MessagesOrdered(t.messages, t.nextMessageId, t.clock)
    && ForeignKeysHold(t.conversations, t.messages)
    && t.nextConversationId > 0 && t.nextMessageId > 0
  }

  /** `Conversation.findByPk(id)`. */
  function FindConversation(cs: seq<Conversation>, id: int): (r: Option<Conversation>)
    ensures r.Some? <==> id in ConversationIds(cs)
    ensures r.Some? ==> r.value in cs && r.value.id == id
  {
    if cs == [] then None
    else if cs[0].id == id then Some(cs[0])
    else
      IdsOfCons(cs[0], cs[1..]);
      assert cs == [cs[0]] + cs[1..];
      FindConversation(cs[1..], id)
  }

  /** `Message.findAll({ where: { conversationId: id } })` in insertion order. */
  function MessagesOf(ms: seq<Message>, id: int): (r: seq<Message>)
    ensures forall m :: m in r <==> m in ms && m.conversationId == id
    ensures |r| <= |ms|
    ensures (forall m :: m in ms ==> m.conversationId != id) ==> r == []
  {
    if ms == [] then []
    else if ms[0].conversationId == id then [ms[0]] + MessagesOf(ms[1..], id)
    else MessagesOf(ms[1..], id)
  }

  /** `username || null`: an empty name is stored as null. */
  function NullIfEmpty(s: Option<string>): (r: Option<string>)
    ensures r.Some? <==> s.Some? && s.value != ""
    ensures r.Some? ==> r == s
  {
    if s.Some? && s.value != "" then s else None
  }

  /** `Conversation.create(...)`: the next id, the column default when `aiType` is not given. */
  function InsertConversation(t: Tables, userId: Option<int>, username: Option<string>, aiType: Option<string>)
    : (r: (Tables, Conversation))
    ensures r.1.id == t.nextConversationId
    ensures r.1.aiType == (if aiType.Some? then aiType.value else DefaultAiType)
    ensures r.1.userId == userId && r.1.username == username
    ensures r.1.createdAt == t.clock && r.1.updatedAt == t.clock
    ensures r.0 == t.(conversations := t.conversations + [r.1],
                      nextConversationId := t.nextConversationId + 1,
                      clock := t.clock + 1)
  {
    var c := Conversation(t.nextConversationId, userId,
                          if aiType.Some? then aiType.value else DefaultAiType,
                          username, t.clock, t.clock);
    (t.(conversations := t.conversations + [c],
        nextConversationId := t.nextConversationId + 1,
        clock := t.clock + 1), c)
  }

  /**
   * `Message.create(...)`: a null `text` fails the not-null check, a
   * conversation id with no row fails the foreign key; nothing is written then.
   */
  function InsertMessage(t: Tables, conversationId: int, role: string, text: Option<string>, analysis: Option<Analysis>)
    : (r: (Tables, Result<Message, Error>))
    ensures text.None? ==> r == (t, Failure(NotNullViolation))
    ensures text.Some? && conversationId !in ConversationIds(t.conversations) ==>
      r == (t, Failure(ForeignKeyViolation))
    ensures r.1.Success? <==> text.Some? && conversationId in ConversationIds(t.conversations)
    ensures r.1.Success? ==>
      && r.1.value == Message(t.nextMessageId, conversationId, role, text.value, analysis, t.clock, t.clock)
      && r.0 == t.(messages := t.messages + [r.1.value], nextMessageId := t.nextMessageId + 1, clock := t.clock + 1)
  {
    if text.None? then (t, Failure(NotNullViolation))
    else if conversationId !in ConversationIds(t.conversations) then (t, Failure(ForeignKeyViolation))
    else
      var m := Message(t.nextMessageId, conversationId, role, text.value, analysis, t.clock, t.clock);
      (t.(messages := t.messages + [m], nextMessageId := t.nextMessageId + 1, clock := t.clock + 1), Success(m))
  }

  function WithoutConversation(cs: seq<Conversation>, id: int): (r: seq<Conversation>)
    ensures forall c :: c in r <==> c in cs && c.id != id
    ensures ConversationIds(r) == ConversationIds(cs) - {id}
  {
    if cs == [] then []
    else
      var rest := WithoutConversation(cs[1..], id);
      IdsOfCons(cs[0], cs[1..]);
      assert cs == [cs[0]] + cs[1..];
      if cs[0].id == id then rest
      else
        IdsOfCons(cs[0], rest);
        [cs[0]] + rest
  }

  function WithoutMessagesOf(ms: seq<Message>, id: int): (r: seq<Message>)
    ensures forall m :: m in r <==> m in ms && m.conversationId != id
  {
    if ms == [] then []
    else if ms[0].conversationId == id then WithoutMessagesOf(ms[1..], id)
    else [ms[0]] + WithoutMessagesOf(ms[1..], id)
  }

  /** Deleting a conversation row; the foreign key's ON DELETE CASCADE removes its messages. */
  function DeleteConversation(t: Tables, id: int): (r: Tables)
    ensures forall c :: c in r.conversations <==> c in t.conversations && c.id != id
    ensures forall m :: m in r.messages <==> m in t.messages && m.conversationId != id
    ensures r == t.(conversations := r.conversations, messages := r.messages)
  {
    t.(conversations := WithoutConversation(t.conversations, id),
       messages := WithoutMessagesOf(t.messages, id))
  }

  /**
   * The store as an object whose tables the route handlers change in place.
   */
  class Database {
    var conversations: seq<Conversation>
    var messages: seq<Message>
    var nextConversationId: int
    var nextMessageId: int
    var clock: nat

    function Snapshot(): Tables
      reads this
    {
      Tables(conversations, messages, nextConversationId, nextMessageId, clock)
    }

    ghost predicate Valid()
      reads this
    {
      Consistent(Snapshot())
    }

    constructor ()
      ensures Valid() && Snapshot() == EmptyTables
    {
      conversations, messages := [], [];
      nextConversationId, nextMessageId, clock := 1, 1, 0;
    }

    method CreateConversation(userId: Option<int>, username: Option<string>, aiType: Option<string>)
      returns (c: Conversation)
      requires Valid()
      modifies this
      ensures Valid()
      ensures (Snapshot(), c) == InsertConversation(old(Snapshot()), userId, username, aiType)
    {
      InsertConversationKeepsConsistent(Snapshot(), userId, username, aiType);
      c := Conversation(nextConversationId, userId,
                        if aiType.Some? then aiType.value else DefaultAiType,
                        username, clock, clock);
      conversations := conversations + [c];
      nextConversationId := nextConversationId + 1;
      clock := clock + 1;
    }

    method CreateMessage(conversationId: int, role: string, text: Option<string>, analysis: Option<Analysis>)
      returns (r: Result<Message, Error>)
      requires Valid()
      modifies this
      ensures Valid()
      ensures (Snapshot(), r) == InsertMessage(old(Snapshot()), conversationId, role, text, analysis)
    {
      InsertMessageKeepsConsistent(Snapshot(), conversationId, role, text, analysis);
      if text.None? {
        return Failure(NotNullViolation);
      }
      if conversationId !in ConversationIds(conversations) {
        return Failure(ForeignKeyViolation);
      }
      var m := Message(nextMessageId, conversationId, role, text.value, analysis, clock, clock);
      messages := messages + [m];
      nextMessageId := nextMessageId + 1;
      clock := clock + 1;
      r := Success(m);
    }

    method Destroy(id: int)
      requires Valid()
      modifies this
      ensures Valid()
      ensures Snapshot() == DeleteConversation(old(Snapshot()), id)
    {
      DeletePreservesValid(Snapshot(), id);
      conversations := WithoutConversation(conversations, id);
      messages := WithoutMessagesOf(messages, id);
    }
  }

  // ---------------------------------------------------------------------
  // Properties of the schema

  lemma IdsOfCons(c: Conversation, cs: seq<Conversation>)
    ensures ConversationIds([c] + cs) == {c.id} + ConversationIds(cs)
  {
    var l := [c] + cs;
    forall x | x in ConversationIds(l) ensures x in {c.id} + ConversationIds(cs) {
      var i :| 0 <= i < |l| && l[i].id == x;
      if i > 0 { assert cs[i - 1].id == x; }
    }
    forall x | x in ConversationIds(cs) ensures x in ConversationIds(l) {
      var i :| 0 <= i < |cs| && cs[i].id == x;
      assert l[i + 1].id == x;
    }
    assert l[0].id == c.id;
  }

  lemma IdsOfSnoc(cs: seq<Conversation>, c: Conversation)
    ensures ConversationIds(cs + [c]) == ConversationIds(cs) + {c.id}
  {
    var l := cs + [c];
    forall x | x in ConversationIds(l) ensures x in ConversationIds(cs) + {c.id} {
      var i :| 0 <= i < |l| && l[i].id == x;
      if i < |cs| { assert cs[i].id == x; }
    }
    forall x | x in ConversationIds(cs) ensures x in ConversationIds(l) {
      var i :| 0 <= i < |cs| && cs[i].id == x;
      assert l[i].id == x;
    }
    assert l[|cs|].id == c.id;
  }

  /** In an ordered table the first row precedes every later one. */
  lemma HeadPrecedesConversations(cs: seq<Conversation>, nextId: int, clock: nat)
    requires cs != [] && ConversationsOrdered(cs, nextId, clock)
    ensures forall c :: c in cs[1..] ==> cs[0].id < c.id && cs[0].createdAt < c.createdAt
  {
    forall c | c in cs[1..] ensures cs[0].id < c.id && cs[0].createdAt < c.createdAt {
      var k :| 0 <= k < |cs[1..]| && cs[1..][k] == c;
      assert cs[k + 1] == c;
    }
  }

  lemma HeadPrecedesMessages(ms: seq<Message>, nextId: int, clock: nat)
    requires ms != [] && MessagesOrdered(ms, nextId, clock)
    ensures forall m :: m in ms[1..] ==> ms[0].id < m.id && ms[0].createdAt < m.createdAt
  {
    forall m | m in ms[1..] ensures ms[0].id < m.id && ms[0].createdAt < m.createdAt {
      var k :| 0 <= k < |ms[1..]| && ms[1..][k] == m;
      assert ms[k + 1] == m;
    }
  }

  /** Putting a row in front of an ordered table keeps it ordered when the row precedes all others. */
  lemma ConsConversationsOrdered(c: Conversation, rest: seq<Conversation>, nextId: int, clock: nat)
    requires ConversationsOrdered(rest, nextId, clock)
    requires 0 < c.id < nextId && c.createdAt < clock && c.updatedAt == c.createdAt
    requires forall x :: x in rest ==> c.id < x.id && c.createdAt < x.createdAt
    ensures ConversationsOrdered([c] + rest, nextId, clock)
  {
    var r := [c] + rest;
    forall i, j | 0 <= i < j < |r| ensures r[i].id < r[j].id && r[i].createdAt < r[j].createdAt {
      assert r[j] == rest[j - 1];
      if i == 0 { assert rest[j - 1] in rest; } else { assert r[i] == rest[i - 1]; }
    }
    forall i | 0 <= i < |r|
      ensures 0 < r[i].id < nextId && r[i].createdAt < clock && r[i].updatedAt == r[i].createdAt
    {
      if i > 0 { assert r[i] == rest[i - 1]; }
    }
  }

  lemma ConsMessagesOrdered(m: Message, rest: seq<Message>, nextId: int, clock: nat)
    requires MessagesOrdered(rest, nextId, clock)
    requires 0 < m.id < nextId && m.createdAt < clock && m.updatedAt == m.createdAt
    requires forall x :: x in rest ==> m.id < x.id && m.createdAt < x.createdAt
    ensures MessagesOrdered([m] + rest, nextId, clock)
  {
    var r := [m] + rest;
    forall i, j | 0 <= i < j < |r| ensures r[i].id < r[j].id && r[i].createdAt < r[j].createdAt {
      assert r[j] == rest[j - 1];
      if i == 0 { assert rest[j - 1] in rest; } else { assert r[i] == rest[i - 1]; }
    }
    forall i | 0 <= i < |r|
      ensures 0 < r[i].id < nextId && r[i].createdAt < clock && r[i].updatedAt == r[i].createdAt
    {
      if i > 0 { assert r[i] == rest[i - 1]; }
    }
  }

  lemma {:induction false} WithoutConversationKeepsOrder(cs: seq<Conversation>, id: int, nextId: int, clock: nat)
    requires ConversationsOrdered(cs, nextId, clock)
    ensures ConversationsOrdered(WithoutConversation(cs, id), nextId, clock)
  {
    if cs != [] {
      assert ConversationsOrdered(cs[1..], nextId, clock);
      WithoutConversationKeepsOrder(cs[1..], id, nextId, clock);
      if cs[0].id != id {
        HeadPrecedesConversations(cs, nextId, clock);
        ConsConversationsOrdered(cs[0], WithoutConversation(cs[1..], id), nextId, clock);
      }
    }
  }

  lemma {:induction false} WithoutMessagesKeepsOrder(ms: seq<Message>, id: int, nextId: int, clock: nat)
    requires MessagesOrdered(ms, nextId, clock)
    ensures MessagesOrdered(WithoutMessagesOf(ms, id), nextId, clock)
  {
    if ms != [] {
      assert MessagesOrdered(ms[1..], nextId, clock);
      WithoutMessagesKeepsOrder(ms[1..], id, nextId, clock);
      if ms[0].conversationId != id {
        HeadPrecedesMessages(ms, nextId, clock);
        ConsMessagesOrdered(ms[0], WithoutMessagesOf(ms[1..], id), nextId, clock);
      }
    }
  }

  /** The messages of one conversation come out in ascending creation order. */
  lemma {:induction false} MessagesOfKeepsOrder(ms: seq<Message>, id: int, nextId: int, clock: nat)
    requires MessagesOrdered(ms, nextId, clock)
    ensures MessagesOrdered(MessagesOf(ms, id), nextId, clock)
  {
    if ms != [] {
      assert MessagesOrdered(ms[1..], nextId, clock);
      MessagesOfKeepsOrder(ms[1..], id, nextId, clock);
      if ms[0].conversationId == id {
        HeadPrecedesMessages(ms, nextId, clock);
        ConsMessagesOrdered(ms[0], MessagesOf(ms[1..], id), nextId, clock);
      }
    }
  }

  /** A new conversation gets an id no row has, and the tables stay consistent. */
  lemma InsertConversationKeepsConsistent(t: Tables, userId: Option<int>, username: Option<string>, aiType: Option<string>)
    requires Consistent(t)
    ensures Consistent(InsertConversation(t, userId, username, aiType).0)
    ensures t.nextConversationId !in ConversationIds(t.conversations)
    ensures ConversationIds(InsertConversation(t, userId, username, aiType).0.conversations)
            == ConversationIds(t.conversations) + {t.nextConversationId}
  {
    var (t', c) := InsertConversation(t, userId, username, aiType);
    IdsOfSnoc(t.conversations, c);
  }

  /** Inserting a message (or failing to) keeps the tables consistent. */
  lemma InsertMessageKeepsConsistent(t: Tables, conversationId: int, role: string, text: Option<string>, analysis: Option<Analysis>)
    requires Consistent(t)
    ensures Consistent(InsertMessage(t, conversationId, role, text, analysis).0)
  {
  }

  /** Cascade deletion keeps the tables valid and leaves no message of the deleted conversation. */
  lemma DeletePreservesValid(t: Tables, id: int)
    requires Consistent(t)
    ensures Consistent(DeleteConversation(t, id))
    ensures forall m :: m in DeleteConversation(t, id).messages ==> m.conversationId != id
    ensures id !in ConversationIds(DeleteConversation(t, id).conversations)
  {
    var t' := DeleteConversation(t, id);
    WithoutConversationKeepsOrder(t.conversations, id, t.nextConversationId, t.clock);
    WithoutMessagesKeepsOrder(t.messages, id, t.nextMessageId, t.clock);
    forall i | 0 <= i < |t'.messages|
      ensures t'.messages[i].conversationId in ConversationIds(t'.conversations)
    {
      var m := t'.messages[i];
      assert m in t.messages;
      var k :| 0 <= k < |t.messages| && t.messages[k] == m;
      assert m.conversationId in ConversationIds(t.conversations);
    }
  }
}
