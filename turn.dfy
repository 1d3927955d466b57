/**
 * One `/respond` turn of either policy: resolve or create the conversation,
 * run Stage 1, store the user message with its analysis, generate the reply,
 * store the assistant message, and answer `{conversationId, analysis, reply}`.
 * Nothing written before a failure is rolled back.
 */
module Turn {
  import opened Wrappers
  import opened Js
  import opened Stage1Analyzer
  import opened Models
  import opened Policy

  /** The request body; `conversationId` is absent, null, or an integer (0 counts as absent). */
  datatype TurnRequest = TurnRequest(text: string, conversationId: Option<int>, username: Option<string>)

  /** `Replied` is the 200 body; every failure gives the same 500 body, `cause` records which step threw. */
  datatype TurnResponse =
    | Replied(conversationId: int, analysis: Analysis, reply: string)
    | ServerError(cause: Error)

  /**
   * The external calls of a turn: Stage 1's analyzers, the reply generator
   * (`None` when the completion's content is null), and the formatting of
   * numbers in template literals.
   */
  datatype Services = Services(
    analyzers: Analyzers,
    generate: GenerationRequest -> Result<Option<string>, Error>,
    numberText: real -> string)

  /** `!conversationId`: absent, null and 0 are falsy. */
  predicate Falsy(id: Option<int>) {
    id.None? || id.value == 0
  }

  /** The conversation row a turn with a falsy id inserts. */
  function NewConversation(t: Tables, v: Variant, req: TurnRequest): Conversation {
    Conversation(t.nextConversationId, None, AiType(v), NullIfEmpty(req.username), t.clock, t.clock)
  }

  /** Step 1: the tables after conversation resolution, and the id the turn writes to. */
  function Resolve(t: Tables, v: Variant, req: TurnRequest): (r: (Tables, int))
    ensures Falsy(req.conversationId) ==>
      r.1 == t.nextConversationId && r.0.conversations == t.conversations + [NewConversation(t, v, req)]
    ensures !Falsy(req.conversationId) ==> r == (t, req.conversationId.value)
    ensures r.0.messages == t.messages && r.0.nextMessageId == t.nextMessageId
  {
    if Falsy(req.conversationId) then
      var (t', c) := InsertConversation(t, None, NullIfEmpty(req.username), Some(AiType(v)));
      (t', c.id)
    else (t, req.conversationId.value)
  }

  /** The whole turn on the store's contents: the tables afterwards and the HTTP answer. */
  function TurnSpec(t: Tables, v: Variant, req: TurnRequest, svc: Services): (r: (Tables, TurnResponse))
  {
    var (t1, convoId) := Resolve(t, v, req);
    match AnalyzeStage1(req.text, svc.analyzers)
    case Failure(e) => (t1, ServerError(e))
    case Success(stage1) => StoreTurn(t1, convoId, v, req, svc, stage1)
  }

  /** Steps 3 to 6, once Stage 1 has produced `stage1`: the user row, the generation, the assistant row. */
  function StoreTurn(t1: Tables, convoId: int, v: Variant, req: TurnRequest, svc: Services, stage1: Analysis)
    : (r: (Tables, TurnResponse))
  {
    var (t2, userMsg) := InsertMessage(t1, convoId, "user", Some(req.text), Some(stage1));
    if userMsg.Failure? then (t2, ServerError(userMsg.error))
    else
      match svc.generate(BuildRequest(v, stage1, req.text, svc.numberText))
      case Failure(e) => (t2, ServerError(e))
      case Success(reply) => StoreReply(t2, convoId, stage1, reply)
  }

  /** Steps 5 and 6: the assistant row and the answer. */
  function StoreReply(t2: Tables, convoId: int, stage1: Analysis, reply: Option<string>): (r: (Tables, TurnResponse))
  {
    var (t3, aiMsg) := InsertMessage(t2, convoId, "assistant", reply, None);
    if aiMsg.Failure? then (t3, ServerError(aiMsg.error))
    else (t3, Replied(convoId, stage1, reply.value))
  }

  /** The `/respond` handler of the route for `variant`, changing the store in place. */
  method Respond(db: Database, variant: Variant, req: TurnRequest, svc: Services) returns (r: TurnResponse)
    requires db.Valid()
    modifies db
    ensures db.Valid()
    ensures (db.Snapshot(), r) == TurnSpec(old(db.Snapshot()), variant, req, svc)
  {
    var convoId := if req.conversationId.Some? then req.conversationId.value else 0;
    if Falsy(req.conversationId) {
      var newConvo := db.CreateConversation(None, NullIfEmpty(req.username), Some(AiType(variant)));
      convoId := newConvo.id;
    }
    assert (db.Snapshot(), convoId) == Resolve(old(db.Snapshot()), variant, req);

    var stage1 := AnalyzeStage1(req.text, svc.analyzers);
    if stage1.Failure? {
      return ServerError(stage1.error);
    }
    r := StoreAndReply(db, convoId, variant, req, svc, stage1.value);
  }

  /** Steps 3 to 6 of the handler: store the user row, generate, store the assistant row. */
  method StoreAndReply(db: Database, convoId: int, variant: Variant, req: TurnRequest, svc: Services, stage1: Analysis)
    returns (r: TurnResponse)
    requires db.Valid()
    modifies db
    ensures db.Valid()
    ensures (db.Snapshot(), r) == StoreTurn(old(db.Snapshot()), convoId, variant, req, svc, stage1)
  {
    var userMsg := db.CreateMessage(convoId, "user", Some(req.text), Some(stage1));
    if userMsg.Failure? {
      return ServerError(userMsg.error);
    }

    var completion := svc.generate(BuildRequest(variant, stage1, req.text, svc.numberText));
    if completion.Failure? {
      return ServerError(completion.error);
    }
    var reply := completion.value;

    var aiMsg := db.CreateMessage(convoId, "assistant", reply, None);
    if aiMsg.Failure? {
      return ServerError(aiMsg.error);
    }

    return Replied(convoId, stage1, reply.value);
  }

  // ---------------------------------------------------------------------
  // Properties of a turn

  /** The user row a turn writes, on the tables and id that step 1 produced. */
  function UserRow(t1: Tables, convoId: int, req: TurnRequest, stage1: Analysis): Message {
    Message(t1.nextMessageId, convoId, "user", req.text, Some(stage1), t1.clock, t1.clock)
  }

  /** The assistant row, written right after the user row. */
  function AssistantRow(t1: Tables, convoId: int, reply: string): Message {
    Message(t1.nextMessageId + 1, convoId, "assistant", reply, None, t1.clock + 1, t1.clock + 1)
  }

  /** A turn leaves the tables consistent, whichever step it stops at. */
  lemma TurnKeepsConsistent(t: Tables, v: Variant, req: TurnRequest, svc: Services)
    requires Consistent(t)
    ensures Consistent(TurnSpec(t, v, req, svc).0)
  {
    var (t1, convoId) := Resolve(t, v, req);
    if Falsy(req.conversationId) {
      InsertConversationKeepsConsistent(t, None, NullIfEmpty(req.username), Some(AiType(v)));
    }
    match AnalyzeStage1(req.text, svc.analyzers)
    case Failure(_) =>
    case Success(stage1) =>
      StoreTurnKeepsConsistent(t1, convoId, v, req, svc, stage1);
  }

  lemma StoreTurnKeepsConsistent(t1: Tables, convoId: int, v: Variant, req: TurnRequest, svc: Services, stage1: Analysis)
    requires Consistent(t1)
    ensures Consistent(StoreTurn(t1, convoId, v, req, svc, stage1).0)
  {
    InsertMessageKeepsConsistent(t1, convoId, "user", Some(req.text), Some(stage1));
    var (t2, userMsg) := InsertMessage(t1, convoId, "user", Some(req.text), Some(stage1));
    if userMsg.Success? {
      match svc.generate(BuildRequest(v, stage1, req.text, svc.numberText))
      case Failure(_) =>
      case Success(reply) =>
        InsertMessageKeepsConsistent(t2, convoId, "assistant", reply, None);
    }
  }

  /** No stored message can name the id the next new conversation will get. */
  lemma FreshIdHasNoMessages(t: Tables)
    requires Consistent(t)
    ensures MessagesOf(t.messages, t.nextConversationId) == []
  {
    forall i | 0 <= i < |t.messages| ensures t.messages[i].conversationId < t.nextConversationId {
      var k :| 0 <= k < |t.conversations| && t.conversations[k].id == t.messages[i].conversationId;
    }
    assert forall m :: m in t.messages ==> m.conversationId != t.nextConversationId;
  }

  /** A conversation is created exactly when the request's id is falsy, with the route's aiType and a null userId. */
  lemma TurnConversationRows(t: Tables, v: Variant, req: TurnRequest, svc: Services)
    requires Consistent(t)
    ensures var t' := TurnSpec(t, v, req, svc).0;
      && (Falsy(req.conversationId) ==> t'.conversations == t.conversations + [NewConversation(t, v, req)])
      && (!Falsy(req.conversationId) ==> t'.conversations == t.conversations)
    ensures NewConversation(t, v, req).id !in ConversationIds(t.conversations)
    ensures NewConversation(t, v, req).aiType == AiType(v) && NewConversation(t, v, req).userId.None?
  {
    InsertConversationKeepsConsistent(t, None, NullIfEmpty(req.username), Some(AiType(v)));
    var (t1, convoId) := Resolve(t, v, req);
    match AnalyzeStage1(req.text, svc.analyzers)
    case Failure(_) =>
    case Success(stage1) =>
      StoreTurnIsAppendOnly(t1, convoId, v, req, svc, stage1);
  }

  /**
   * A Stage-1 failure ends the turn after step 1: no message is written,
   * but a conversation created in step 1 stays, with no messages.
   */
  lemma FailedAnalysisWritesNoMessage(t: Tables, v: Variant, req: TurnRequest, svc: Services)
    requires Consistent(t)
    requires AnalyzeStage1(req.text, svc.analyzers).Failure?
    ensures var (t', r) := TurnSpec(t, v, req, svc);
      && t'.messages == t.messages
      && r == ServerError(AnalyzeStage1(req.text, svc.analyzers).error)
      && (Falsy(req.conversationId) ==>
            NewConversation(t, v, req) in t'.conversations
            && MessagesOf(t'.messages, NewConversation(t, v, req).id) == [])
  {
    FreshIdHasNoMessages(t);
  }

  /** A supplied id is used unchecked; only the store's foreign key rejects one with no row, and nothing is written. */
  lemma UnknownConversationWritesNothing(t: Tables, v: Variant, req: TurnRequest, svc: Services)
    requires Consistent(t)
    requires !Falsy(req.conversationId) && req.conversationId.value !in ConversationIds(t.conversations)
    requires AnalyzeStage1(req.text, svc.analyzers).Success?
    ensures TurnSpec(t, v, req, svc) == (t, ServerError(ForeignKeyViolation))
  {
  }

  /** The id step 1 resolved to names a conversation that exists. */
  predicate Resolvable(t: Tables, req: TurnRequest) {
    Falsy(req.conversationId) || req.conversationId.value in ConversationIds(t.conversations)
  }

  /** Step 1 leaves the id it resolved to in the conversations table. */
  lemma ResolvedIdExists(t: Tables, v: Variant, req: TurnRequest)
    requires Resolvable(t, req)
    ensures Resolve(t, v, req).1 in ConversationIds(Resolve(t, v, req).0.conversations)
  {
    if Falsy(req.conversationId) {
      IdsOfSnoc(t.conversations, NewConversation(t, v, req));
    }
  }

  /** Steps 3 to 6 on an existing conversation, when the generator fails or returns null. */
  lemma StoreTurnKeepsUserMessage(t1: Tables, convoId: int, v: Variant, req: TurnRequest, svc: Services, stage1: Analysis)
    requires convoId in ConversationIds(t1.conversations)
    requires var g := svc.generate(BuildRequest(v, stage1, req.text, svc.numberText));
      g.Failure? || g.value.None?
    ensures var g := svc.generate(BuildRequest(v, stage1, req.text, svc.numberText));
      var (t', r) := StoreTurn(t1, convoId, v, req, svc, stage1);
      && t'.messages == t1.messages + [UserRow(t1, convoId, req, stage1)]
      && r == ServerError(if g.Failure? then g.error else NotNullViolation)
  {
  }

  /** Steps 3 to 6 on an existing conversation, when the generator returns a reply. */
  lemma StoreTurnAppendsPair(t1: Tables, convoId: int, v: Variant, req: TurnRequest, svc: Services, stage1: Analysis, reply: string)
    requires convoId in ConversationIds(t1.conversations)
    requires svc.generate(BuildRequest(v, stage1, req.text, svc.numberText)) == Success(Some(reply))
    ensures StoreTurn(t1, convoId, v, req, svc, stage1)
         == (t1.(messages := t1.messages + [UserRow(t1, convoId, req, stage1), AssistantRow(t1, convoId, reply)],
                 nextMessageId := t1.nextMessageId + 2, clock := t1.clock + 2),
             Replied(convoId, stage1, reply))
  {
    var (t2, userMsg) := InsertMessage(t1, convoId, "user", Some(req.text), Some(stage1));
    assert userMsg == Success(UserRow(t1, convoId, req, stage1));
    var (t3, aiMsg) := InsertMessage(t2, convoId, "assistant", Some(reply), None);
    assert aiMsg == Success(AssistantRow(t1, convoId, reply));
    assert t3.messages == t1.messages + [UserRow(t1, convoId, req, stage1), AssistantRow(t1, convoId, reply)];
  }

  /**
   * A generation failure, or a null reply (refused by the not-null `text`
   * column), leaves the user message stored and no assistant message.
   */
  lemma FailedGenerationKeepsUserMessage(t: Tables, v: Variant, req: TurnRequest, svc: Services)
    requires Resolvable(t, req)
    requires AnalyzeStage1(req.text, svc.analyzers).Success?
    requires var stage1 := AnalyzeStage1(req.text, svc.analyzers).value;
      var g := svc.generate(BuildRequest(v, stage1, req.text, svc.numberText));
      g.Failure? || g.value.None?
    ensures var (t1, convoId) := Resolve(t, v, req);
      var stage1 := AnalyzeStage1(req.text, svc.analyzers).value;
      var g := svc.generate(BuildRequest(v, stage1, req.text, svc.numberText));
      var (t', r) := TurnSpec(t, v, req, svc);
      && t'.messages == t.messages + [UserRow(t1, convoId, req, stage1)]
      && r == ServerError(if g.Failure? then g.error else NotNullViolation)
  {
    var (t1, convoId) := Resolve(t, v, req);
    ResolvedIdExists(t, v, req);
    StoreTurnKeepsUserMessage(t1, convoId, v, req, svc, AnalyzeStage1(req.text, svc.analyzers).value);
  }

  /**
   * A successful turn appends exactly the user row (carrying the analysis)
   * and the assistant row (reply, null analysis), in that order, and answers
   * with the resolved id, the same analysis and the same reply.
   */
  lemma SuccessfulTurnAppendsPair(t: Tables, v: Variant, req: TurnRequest, svc: Services, reply: string)
    requires Resolvable(t, req)
    requires AnalyzeStage1(req.text, svc.analyzers).Success?
    requires svc.generate(BuildRequest(v, AnalyzeStage1(req.text, svc.analyzers).value, req.text, svc.numberText))
             == Success(Some(reply))
    ensures var (t1, convoId) := Resolve(t, v, req);
      var stage1 := AnalyzeStage1(req.text, svc.analyzers).value;
      var (t', r) := TurnSpec(t, v, req, svc);
      && t'.messages == t.messages + [UserRow(t1, convoId, req, stage1), AssistantRow(t1, convoId, reply)]
      && r == Replied(convoId, stage1, reply)
      && t'.messages[|t.messages|].analysis == Some(r.analysis)
      && t'.messages[|t.messages| + 1].text == r.reply
  {
    var (t1, convoId) := Resolve(t, v, req);
    ResolvedIdExists(t, v, req);
    StoreTurnAppendsPair(t1, convoId, v, req, svc, AnalyzeStage1(req.text, svc.analyzers).value, reply);
  }

  /** Steps 3 to 6 only append messages, at most two. */
  lemma StoreTurnIsAppendOnly(t1: Tables, convoId: int, v: Variant, req: TurnRequest, svc: Services, stage1: Analysis)
    ensures var t' := StoreTurn(t1, convoId, v, req, svc, stage1).0;
      && t'.conversations == t1.conversations
      && t1.messages <= t'.messages && |t'.messages| <= |t1.messages| + 2
  {
  }

  /** Rows are only ever appended: earlier conversations and messages are kept as they were. */
  lemma TurnIsAppendOnly(t: Tables, v: Variant, req: TurnRequest, svc: Services)
    ensures var t' := TurnSpec(t, v, req, svc).0;
      && t.conversations <= t'.conversations
      && t.messages <= t'.messages
      && |t'.messages| <= |t.messages| + 2
      && |t'.conversations| <= |t.conversations| + 1
  {
    var (t1, convoId) := Resolve(t, v, req);
    match AnalyzeStage1(req.text, svc.analyzers)
    case Failure(_) =>
    case Success(stage1) =>
      StoreTurnIsAppendOnly(t1, convoId, v, req, svc, stage1);
  }

  /**
   * An id that belongs to a conversation of the other policy is accepted:
   * the turn appends to it exactly as it would to one of its own.
   */
  lemma ReusedIdIsNotChecked(t: Tables, v: Variant, req: TurnRequest, svc: Services, reply: string)
    requires Consistent(t) && !Falsy(req.conversationId)
    requires FindConversation(t.conversations, req.conversationId.value).Some?
    requires FindConversation(t.conversations, req.conversationId.value).value.aiType != AiType(v)
    requires AnalyzeStage1(req.text, svc.analyzers).Success?
    requires svc.generate(BuildRequest(v, AnalyzeStage1(req.text, svc.analyzers).value, req.text, svc.numberText))
             == Success(Some(reply))
    ensures TurnSpec(t, v, req, svc).1 == Replied(req.conversationId.value, AnalyzeStage1(req.text, svc.analyzers).value, reply)
    ensures TurnSpec(t, v, req, svc).0.conversations == t.conversations
  {
    SuccessfulTurnAppendsPair(t, v, req, svc, reply);
  }

  /** A successful first turn leaves its new conversation with a user message followed by an assistant message. */
  lemma FirstTurnStartsWithUser(t: Tables, v: Variant, req: TurnRequest, svc: Services, reply: string)
    requires Consistent(t) && Falsy(req.conversationId)
    requires AnalyzeStage1(req.text, svc.analyzers).Success?
    requires svc.generate(BuildRequest(v, AnalyzeStage1(req.text, svc.analyzers).value, req.text, svc.numberText))
             == Success(Some(reply))
    ensures var (t', r) := TurnSpec(t, v, req, svc);
      && r.Replied? && r.conversationId == t.nextConversationId
      && var ms := MessagesOf(t'.messages, r.conversationId);
         |ms| == 2 && ms[0].role == "user" && ms[1].role == "assistant"
         && ms[0].analysis == Some(r.analysis) && ms[1].text == r.reply
  {
    SuccessfulTurnAppendsPair(t, v, req, svc, reply);
    FreshIdHasNoMessages(t);
    var (t1, convoId) := Resolve(t, v, req);
    var stage1 := AnalyzeStage1(req.text, svc.analyzers).value;
    var u := UserRow(t1, convoId, req, stage1);
    var a := AssistantRow(t1, convoId, reply);
    MessagesOfAppend(t.messages, [u, a], convoId);
    assert [u, a][1..] == [a];
  }

  lemma {:induction false} MessagesOfAppend(ms: seq<Message>, more: seq<Message>, id: int)
    ensures MessagesOf(ms + more, id) == MessagesOf(ms, id) + MessagesOf(more, id)
  {
    if ms == [] {
      assert ms + more == more;
    } else {
      assert (ms + more)[1..] == ms[1..] + more;
      MessagesOfAppend(ms[1..], more, id);
    }
  }
}
