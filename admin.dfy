/**
 * The research-admin routes: the token gate, the two listings, and the two
 * CSV exports (one conversation, and every message of every conversation).
 */
module Admin {
  import opened Wrappers
  import opened Stage1Analyzer
  import opened Models
  import opened Csv

  /** The status outcomes of an admin route; the JSON error bodies are not modelled. */
  datatype Response<T> = Ok(body: T) | Forbidden | NotFound | InternalError

  /** The two places a token can be presented: the `x-admin-token` header and the `token` query parameter. */
  datatype AdminRequest = AdminRequest(headerToken: Option<string>, queryToken: Option<string>)

  /**
   * What the routes take from their surroundings: the configured
   * `ADMIN_TOKEN`, `formatDateEST` of a stamp, `JSON.stringify` of a stored
   * analysis, and the store's reading of a path parameter as a primary key
   * (None when the store rejects the parameter, which makes the query throw).
   */
  datatype AdminEnv = AdminEnv(
    adminToken: Option<string>,
    formatDate: nat -> string,
    stringify: Analysis -> string,
    castId: string -> Option<int>)

  /** A string that JavaScript treats as true: present and non-empty. */
  predicate Truthy(s: Option<string>) {
    s.Some? && s.value != ""
  }

  /**
   * `adminCheck`: the header token when it is truthy, the query token
   * otherwise; the request passes only when that token is truthy and equal to
   * the configured one.
   */
  function AdminCheck(header: Option<string>, query: Option<string>, adminToken: Option<string>): (r: bool)
    ensures r ==> Truthy(adminToken)
    ensures Truthy(header) ==> (r <==> adminToken == header)
    ensures !Truthy(header) ==> (r <==> Truthy(query) && adminToken == query)
  {
    var token := if Truthy(header) then header else query;
    Truthy(token) && adminToken == token
  }

  predicate Admitted(req: AdminRequest, env: AdminEnv) {
    AdminCheck(req.headerToken, req.queryToken, env.adminToken)
  }

  // ---------------------------------------------------------------------
  // Listings

  /** `Conversation.findAll` ordered by createdAt, newest first. */
  function NewestFirst(cs: seq<Conversation>): (r: seq<Conversation>)
    ensures |r| == |cs|
    ensures forall i :: 0 <= i < |cs| ==> r[i] == cs[|cs| - 1 - i]
  {
    if cs == [] then [] else NewestFirst(cs[1..]) + [cs[0]]
  }

  /** `GET /conversations`. */
  function ListConversations(t: Tables, req: AdminRequest, env: AdminEnv): (r: Response<seq<Conversation>>)
    ensures !Admitted(req, env) <==> r == Forbidden
    ensures r.Ok? ==> multiset(r.body) == multiset(t.conversations)
  {
    if !Admitted(req, env) then Forbidden
    else
      var r := NewestFirst(t.conversations);
      ReverseIsPermutation(t.conversations, r);
      Ok(r)
  }

  /** `GET /messages/:id`: the conversation's messages by createdAt, oldest first. */
  function ListMessages(t: Tables, req: AdminRequest, param: string, env: AdminEnv): (r: Response<seq<Message>>)
    ensures !Admitted(req, env) <==> r == Forbidden
    ensures Admitted(req, env) && env.castId(param).None? ==> r == InternalError
    ensures r.Ok? ==> env.castId(param).Some?
    ensures r.Ok? ==> forall m :: m in r.body <==> m in t.messages && m.conversationId == env.castId(param).value
  {
    if !Admitted(req, env) then Forbidden
    else
      match env.castId(param)
      case None => InternalError
      case Some(id) => Ok(MessagesOf(t.messages, id))
  }

  // ---------------------------------------------------------------------
  // The CSV layout

  const Columns: seq<string> :=
    ["conversationId", "messageId", "role", "aiType", "username", "userId", "text", "createdAt", "updatedAt", "analysis"]

  /**
   * The same ten names as the cells the header line is written from. Both
   * are spelled out because the header proofs need the cells as literals;
   * `HeaderTexts` proves that they name exactly `Columns`.
   */
  const HeaderCells: seq<Cell> := [
    Plain("conversationId"), Plain("messageId"), Plain("role"), Plain("aiType"), Plain("username"),
    Plain("userId"), Plain("text"), Plain("createdAt"), Plain("updatedAt"), Plain("analysis")]

  /** The header line both exports start with: the column names, comma-separated, then a line feed. */
  function Header(): string {
    RecordText(HeaderCells)
  }

  /** `x || ""` for a nullable string. */
  function OrEmpty(s: Option<string>): (r: string)
    ensures s.Some? ==> r == s.value
    ensures s.None? ==> r == ""
  {
    if s.Some? then s.value else ""
  }

  /** `userId || ""`: a null or zero user id is written as an empty field. */
  function UserIdText(u: Option<int>): (r: string)
    ensures r == "" <==> u.None? || u.value == 0
    ensures Clean(r)
    ensures u.Some? && u.value > 0 ==>
      (forall i :: 0 <= i < |r| ==> '0' <= r[i] <= '9') && DigitsValue(r) == u.value
    ensures u.Some? && u.value < 0 ==>
      |r| > 1 && r[0] == '-' && (forall i :: 1 <= i < |r| ==> '0' <= r[i] <= '9') && DigitsValue(r[1..]) == -u.value
  {
    if u.None? || u.value == 0 then "" else IntTextValue(u.value); IntText(u.value)
  }

  /** The analysis column: the serialised record, or nothing for a null analysis. */
  function AnalysisText(a: Option<Analysis>, stringify: Analysis -> string): string {
    if a.Some? then stringify(a.value) else ""
  }

  /**
   * The ten fields of a row: the identifiers, role and conversation fields
   * unquoted and unescaped, the text and the analysis quoted with their quotes
   * doubled, the two stamps as `formatDateEST` writes them.
   */
  function RowCells(conversationField: string, aiType: string, username: Option<string>, userId: Option<int>,
                    m: Message, env: AdminEnv): (r: seq<Cell>)
    ensures |r| == 10
  {
    [Plain(conversationField), Plain(IntText(m.id)), Plain(m.role), Plain(aiType), Plain(OrEmpty(username)),
     Plain(UserIdText(userId)), Quoted(m.text), Plain(env.formatDate(m.createdAt)),
     Plain(env.formatDate(m.updatedAt)), Quoted(AnalysisText(m.analysis, env.stringify))]
  }

  /** A row of `/export/:id`: the first field is the path parameter as given. */
  function ExportCells(param: string, c: Conversation, m: Message, env: AdminEnv): seq<Cell> {
    RowCells(param, c.aiType, c.username, c.userId, m, env)
  }

  function ExportRows(param: string, c: Conversation, ms: seq<Message>, env: AdminEnv): (r: seq<seq<Cell>>)
    ensures |r| == |ms|
    ensures forall i :: 0 <= i < |ms| ==> r[i] == ExportCells(param, c, ms[i], env)
  {
    seq(|ms|, i requires 0 <= i < |ms| => ExportCells(param, c, ms[i], env))
  }

  /** What `GET /export/:id` answers, on the store's contents. */
  function ExportConversationSpec(t: Tables, req: AdminRequest, param: string, env: AdminEnv): (r: Response<string>)
    ensures !Admitted(req, env) <==> r == Forbidden
    ensures Admitted(req, env) && env.castId(param).None? ==> r == InternalError
    ensures Admitted(req, env) && env.castId(param).Some? ==>
      (r == NotFound <==> env.castId(param).value !in ConversationIds(t.conversations))
  {
    if !Admitted(req, env) then Forbidden
    else
      match env.castId(param)
      case None => InternalError
      case Some(id) =>
        match FindConversation(t.conversations, id)
        case None => NotFound
        case Some(c) =>
          Ok(WithHeader(ExportRows(param, c, MessagesOf(t.messages, id), env)))
  }

  /**
   * `GET /export/:id`: look the conversation up, then append one row per
   * message to the header.
   */
  method ExportConversation(db: Database, req: AdminRequest, param: string, env: AdminEnv)
    returns (r: Response<string>)
    ensures r == ExportConversationSpec(db.Snapshot(), req, param, env)
  {
    if !AdminCheck(req.headerToken, req.queryToken, env.adminToken) {
      return Forbidden;
    }
    var key := env.castId(param);
    if key.None? {
      return InternalError;
    }
    var convo := FindConversation(db.conversations, key.value);
    if convo.None? {
      return NotFound;
    }
    var messages := MessagesOf(db.messages, key.value);
    var csv := WriteExportRows(param, convo.value, messages, env);
    return Ok(csv);
  }

  /** The loop of `/export/:id`: the header, then one line per message of the conversation. */
  method WriteExportRows(param: string, c: Conversation, messages: seq<Message>, env: AdminEnv)
    returns (csv: string)
    ensures csv == WithHeader(ExportRows(param, c, messages, env))
  {
    csv := Header();
    ExportStart(param, c, messages, env);
    var i := 0;
    while i < |messages|
      invariant 0 <= i <= |messages|
      invariant csv == WithHeader(ExportRows(param, c, messages[..i], env))
    {
      ExportStep(param, c, messages, i, env);
      csv := csv + RecordText(ExportCells(param, c, messages[i], env));
      i := i + 1;
    }
    assert messages[..i] == messages;
  }

  // ---------------------------------------------------------------------
  // Exporting everything

  /** The entry of `convoMap`; a missing entry reads as `{}`, whose fields are all undefined. */
  datatype ConvoInfo = ConvoInfo(aiType: Option<string>, username: Option<string>, userId: Option<int>)

  const NoInfo := ConvoInfo(None, None, None)

  function InfoOf(c: Conversation): ConvoInfo {
    ConvoInfo(Some(c.aiType), c.username, c.userId)
  }

  /** `convoMap` after its loop: each conversation in turn writes its entry, a later one overwriting. */
  function ConvoMapOf(cs: seq<Conversation>): (r: map<int, ConvoInfo>)
    ensures r.Keys == ConversationIds(cs)
  {
    if cs == [] then map[]
    else
      var last := cs[|cs| - 1];
      IdsOfSnoc(cs[..|cs| - 1], last);
      assert cs == cs[..|cs| - 1] + [last];
      ConvoMapOf(cs[..|cs| - 1])[last.id := InfoOf(last)]
  }

  /** `convoMap[m.conversationId] || {}`. */
  function Lookup(convoMap: map<int, ConvoInfo>, id: int): (r: ConvoInfo)
    ensures id in convoMap ==> r == convoMap[id]
    ensures id !in convoMap ==> r == NoInfo
  {
    if id in convoMap then convoMap[id] else NoInfo
  }

  method BuildConvoMap(cs: seq<Conversation>) returns (convoMap: map<int, ConvoInfo>)
    ensures convoMap == ConvoMapOf(cs)
  {
    convoMap := map[];
    var i := 0;
    while i < |cs|
      invariant 0 <= i <= |cs|
      invariant convoMap == ConvoMapOf(cs[..i])
    {
      var c := cs[i];
      assert cs[..i + 1][..i] == cs[..i];
      convoMap := convoMap[c.id := InfoOf(c)];
      i := i + 1;
    }
    assert cs[..i] == cs;
  }

  /** The order of `/export-all`: by conversation id, then by creation stamp. */
  predicate ExportBefore(a: Message, b: Message) {
    a.conversationId < b.conversationId || (a.conversationId == b.conversationId && a.createdAt <= b.createdAt)
  }

  predicate ExportSorted(ms: seq<Message>) {
    forall i, j :: 0 <= i < j < |ms| ==> ExportBefore(ms[i], ms[j])
  }

  function InsertSorted(m: Message, ms: seq<Message>): (r: seq<Message>)
    ensures multiset(r) == multiset(ms) + multiset{m}
  {
    if ms == [] || ExportBefore(m, ms[0]) then
      [m] + ms
    else
      assert ms == [ms[0]] + ms[1..];
      [ms[0]] + InsertSorted(m, ms[1..])
  }

  /** `Message.findAll` ordered by conversationId then createdAt. */
  function SortForExport(ms: seq<Message>): (r: seq<Message>)
    ensures multiset(r) == multiset(ms)
  {
    if ms == [] then []
    else
      assert ms == [ms[0]] + ms[1..];
      InsertSorted(ms[0], SortForExport(ms[1..]))
  }

  /** A row of `/export-all` with the layout of `/export/:id`, the conversation fields taken from `convoMap`. */
  function AllCells(m: Message, info: ConvoInfo, env: AdminEnv): seq<Cell> {
    RowCells(IntText(m.conversationId), OrEmpty(info.aiType), info.username, info.userId, m, env)
  }

  function AllRows(ms: seq<Message>, convoMap: map<int, ConvoInfo>, env: AdminEnv): (r: seq<seq<Cell>>)
    ensures |r| == |ms|
    ensures forall i :: 0 <= i < |ms| ==> r[i] == AllCells(ms[i], Lookup(convoMap, ms[i].conversationId), env)
  {
    seq(|ms|, i requires 0 <= i < |ms| => AllCells(ms[i], Lookup(convoMap, ms[i].conversationId), env))
  }

  /**
   * What `GET /export-all` answers with its row template corrected to the
   * ten-field layout of `/export/:id`: one row per stored message.
   */
  function ExportAllSpec(t: Tables, req: AdminRequest, env: AdminEnv): (r: Response<string>)
    ensures !Admitted(req, env) <==> r == Forbidden
    ensures Admitted(req, env) ==> r.Ok?
  {
    if !Admitted(req, env) then Forbidden
    else
      Ok(WithHeader(AllRows(SortForExport(t.messages), ConvoMapOf(t.conversations), env)))
  }

  /** `GET /export-all` with the corrected row: fill `convoMap`, fetch the ordered messages, append one row per message. */
  method ExportAll(db: Database, req: AdminRequest, env: AdminEnv) returns (r: Response<string>)
    ensures r == ExportAllSpec(db.Snapshot(), req, env)
  {
    if !AdminCheck(req.headerToken, req.queryToken, env.adminToken) {
      return Forbidden;
    }
    var convoMap := BuildConvoMap(db.conversations);
    var messages := SortForExport(db.messages);
    var csv := WriteAllRows(messages, convoMap, env);
    return Ok(csv);
  }

  /** The `forEach` of `/export-all` with the corrected row: the header, then one row per message in the given order. */
  method WriteAllRows(messages: seq<Message>, convoMap: map<int, ConvoInfo>, env: AdminEnv) returns (csv: string)
    ensures csv == WithHeader(AllRows(messages, convoMap, env))
  {
    csv := Header();
    AllStart(messages, convoMap, env);
    var i := 0;
    while i < |messages|
      invariant 0 <= i <= |messages|
      invariant csv == WithHeader(AllRows(messages[..i], convoMap, env))
    {
      var m := messages[i];
      AllStep(messages, i, convoMap, env);
      csv := csv + RecordText(AllCells(m, Lookup(convoMap, m.conversationId), env));
      i := i + 1;
    }
    assert messages[..i] == messages;
  }

  /**
   * The `/export-all` row as its template literal is written: a line break
   * sits between the createdAt field and the comma before updatedAt.
   */
  function AllRowTextAsWritten(m: Message, info: ConvoInfo, env: AdminEnv): string {
    var cells := AllCells(m, info, env);
    JoinCells(cells[..8]) + ['\n'] + [','] + JoinCells(cells[8..]) + ['\n']
  }

  // ---------------------------------------------------------------------
  // Properties of the routes

  lemma ReverseIsPermutation(cs: seq<Conversation>, r: seq<Conversation>)
    requires r == NewestFirst(cs)
    ensures multiset(r) == multiset(cs)
  {
    if cs != [] {
      ReverseIsPermutation(cs[1..], NewestFirst(cs[1..]));
      assert cs == [cs[0]] + cs[1..];
    }
  }

  /** Inserting into a sorted list keeps it sorted. */
  lemma {:induction false} InsertSortedKeepsOrder(m: Message, ms: seq<Message>)
    requires ExportSorted(ms)
    ensures ExportSorted(InsertSorted(m, ms))
  {
    if ms == [] {
    } else if ExportBefore(m, ms[0]) {
      forall x | x in ms ensures ExportBefore(m, x) {
        var k :| 0 <= k < |ms| && ms[k] == x;
      }
      ConsSorted(m, ms);
    } else {
      assert ExportSorted(ms[1..]);
      InsertSortedKeepsOrder(m, ms[1..]);
      var rest := InsertSorted(m, ms[1..]);
      forall x | x in rest ensures ExportBefore(ms[0], x) {
        assert x in multiset(ms[1..]) + multiset{m};
        if x != m {
          var k :| 0 <= k < |ms[1..]| && ms[1..][k] == x;
          assert ms[k + 1] == x;
        }
      }
      ConsSorted(ms[0], rest);
    }
  }

  /** A message that comes before every message of a sorted list can be put in front of it. */
  lemma ConsSorted(x: Message, rest: seq<Message>)
    requires ExportSorted(rest)
    requires forall y :: y in rest ==> ExportBefore(x, y)
    ensures ExportSorted([x] + rest)
  {
    var r := [x] + rest;
    forall i, j | 0 <= i < j < |r| ensures ExportBefore(r[i], r[j]) {
      assert r[j] == rest[j - 1];
      if i == 0 { assert rest[j - 1] in rest; } else { assert r[i] == rest[i - 1]; }
    }
  }

  /** The exported messages come in (conversationId, createdAt) order. */
  lemma {:induction false} SortForExportIsSorted(ms: seq<Message>)
    ensures ExportSorted(SortForExport(ms))
  {
    if ms != [] {
      SortForExportIsSorted(ms[1..]);
      InsertSortedKeepsOrder(ms[0], SortForExport(ms[1..]));
    }
  }

  /** A body of either export: the header line, then one line per row. */
  function WithHeader(rows: seq<seq<Cell>>): string
    requires forall i :: 0 <= i < |rows| ==> rows[i] != []
  {
    Document([HeaderCells] + rows)
  }

  lemma HeaderOnly()
    ensures WithHeader([]) == Header()
  {
    var none: seq<seq<Cell>> := [];
    assert [HeaderCells] + none == [HeaderCells];
    SingleDocument(HeaderCells);
  }

  lemma WithHeaderSnoc(rows: seq<seq<Cell>>, row: seq<Cell>)
    requires forall i :: 0 <= i < |rows| ==> rows[i] != []
    requires row != []
    ensures WithHeader(rows + [row]) == WithHeader(rows) + RecordText(row)
  {
    assert [HeaderCells] + (rows + [row]) == ([HeaderCells] + rows) + [row];
    DocumentSnoc([HeaderCells] + rows, row);
  }

  lemma ExportStart(param: string, c: Conversation, ms: seq<Message>, env: AdminEnv)
    ensures Header() == WithHeader(ExportRows(param, c, ms[..0], env))
  {
    HeaderOnly();
  }

  lemma ExportStep(param: string, c: Conversation, ms: seq<Message>, i: nat, env: AdminEnv)
    requires i < |ms|
    ensures WithHeader(ExportRows(param, c, ms[..i + 1], env))
         == WithHeader(ExportRows(param, c, ms[..i], env)) + RecordText(ExportCells(param, c, ms[i], env))
  {
    ExportRowsSnoc(param, c, ms, i, env);
    WithHeaderSnoc(ExportRows(param, c, ms[..i], env), ExportCells(param, c, ms[i], env));
  }

  lemma ExportRowsSnoc(param: string, c: Conversation, ms: seq<Message>, i: nat, env: AdminEnv)
    requires i < |ms|
    ensures ExportRows(param, c, ms[..i + 1], env) == ExportRows(param, c, ms[..i], env) + [ExportCells(param, c, ms[i], env)]
  {
    var a := ExportRows(param, c, ms[..i + 1], env);
    var b := ExportRows(param, c, ms[..i], env) + [ExportCells(param, c, ms[i], env)];
    forall k | 0 <= k < |a| ensures a[k] == b[k] {
      assert ms[..i + 1][k] == ms[k];
      if k < i { assert ms[..i][k] == ms[k]; }
    }
  }

  lemma AllStart(ms: seq<Message>, convoMap: map<int, ConvoInfo>, env: AdminEnv)
    ensures Header() == WithHeader(AllRows(ms[..0], convoMap, env))
  {
    HeaderOnly();
  }

  lemma AllStep(ms: seq<Message>, i: nat, convoMap: map<int, ConvoInfo>, env: AdminEnv)
    requires i < |ms|
    ensures WithHeader(AllRows(ms[..i + 1], convoMap, env))
         == WithHeader(AllRows(ms[..i], convoMap, env))
            + RecordText(AllCells(ms[i], Lookup(convoMap, ms[i].conversationId), env))
  {
    AllRowsSnoc(ms, i, convoMap, env);
    WithHeaderSnoc(AllRows(ms[..i], convoMap, env), AllCells(ms[i], Lookup(convoMap, ms[i].conversationId), env));
  }

  lemma AllRowsSnoc(ms: seq<Message>, i: nat, convoMap: map<int, ConvoInfo>, env: AdminEnv)
    requires i < |ms|
    ensures AllRows(ms[..i + 1], convoMap, env)
         == AllRows(ms[..i], convoMap, env) + [AllCells(ms[i], Lookup(convoMap, ms[i].conversationId), env)]
  {
    var a := AllRows(ms[..i + 1], convoMap, env);
    var b := AllRows(ms[..i], convoMap, env);
    assert |a| == |b| + 1;
    assert a[..i] == b by {
      forall k | 0 <= k < i ensures a[k] == b[k] {
        assert ms[..i + 1][k] == ms[..i][k];
      }
    }
    assert a == a[..i] + [a[i]];
  }

  /** `/conversations` lists every conversation, newest first. */
  lemma {:induction false} ConversationsNewestFirst(t: Tables, req: AdminRequest, env: AdminEnv)
    requires Consistent(t) && Admitted(req, env)
    ensures var r := ListConversations(t, req, env);
      && r.Ok?
      && multiset(r.body) == multiset(t.conversations)
      && forall i, j :: 0 <= i < j < |r.body| ==> r.body[i].createdAt > r.body[j].createdAt
  {
    var cs := t.conversations;
    var r := NewestFirst(cs);
    forall i, j | 0 <= i < j < |r| ensures r[i].createdAt > r[j].createdAt {
      assert r[i] == cs[|cs| - 1 - i] && r[j] == cs[|cs| - 1 - j];
    }
  }

  /** `/messages/:id` lists exactly the conversation's messages, oldest first. */
  lemma MessagesOldestFirst(t: Tables, req: AdminRequest, param: string, env: AdminEnv)
    requires Consistent(t) && Admitted(req, env) && env.castId(param).Some?
    ensures var r := ListMessages(t, req, param, env);
      && r.Ok?
      && (forall m :: m in r.body <==> m in t.messages && m.conversationId == env.castId(param).value)
      && forall i, j :: 0 <= i < j < |r.body| ==> r.body[i].createdAt < r.body[j].createdAt
  {
    MessagesOfKeepsOrder(t.messages, env.castId(param).value, t.nextMessageId, t.clock);
  }

  /** Fields the reader can take back: every unquoted field of the rows is free of separators, quotes and line feeds. */
  ghost predicate CleanStamps(env: AdminEnv) {
    forall n: nat :: Clean(env.formatDate(n))
  }

  lemma HeaderReadable()
    ensures Readable(HeaderCells) && Texts(HeaderCells) == Columns
  {
    HeaderClean();
    HeaderTexts();
  }

  lemma HeaderClean()
    ensures Readable(HeaderCells)
  {
    ColumnsCleanLow();
    ColumnsCleanHigh();
    ReadableByChars(HeaderCells);
  }

  lemma HeaderTexts()
    ensures Texts(HeaderCells) == Columns
  {
    ColumnsNamedLow();
    ColumnsNamedHigh();
    TextsMatch(HeaderCells, Columns);
  }

  lemma ColumnsCleanLow()
    ensures forall i :: 0 <= i < 5 ==> CleanChars(HeaderCells[i].text)
  {
  }

  lemma ColumnsCleanHigh()
    ensures forall i :: 5 <= i < 10 ==> CleanChars(HeaderCells[i].text)
  {
  }

  lemma ColumnsNamedLow()
    ensures forall i :: 0 <= i < 5 ==> HeaderCells[i].text == Columns[i]
  {
  }

  lemma ColumnsNamedHigh()
    ensures forall i :: 5 <= i < 10 ==> HeaderCells[i].text == Columns[i]
  {
  }

  lemma RowReadable(conversationField: string, aiType: string, username: Option<string>, userId: Option<int>,
                    m: Message, env: AdminEnv)
    requires Clean(conversationField) && Clean(aiType) && Clean(OrEmpty(username)) && Clean(m.role)
    requires CleanStamps(env)
    ensures Readable(RowCells(conversationField, aiType, username, userId, m, env))
  {
    assert Clean(env.formatDate(m.createdAt)) && Clean(env.formatDate(m.updatedAt));
  }

  /** A document made of the header and readable rows reads back as the column names and the rows' values. */
  lemma ReadBackWithHeader(rows: seq<seq<Cell>>)
    requires forall i :: 0 <= i < |rows| ==> rows[i] != [] && Readable(rows[i])
    ensures ReadAll(WithHeader(rows))
         == Some([Columns] + seq(|rows|, i requires 0 <= i < |rows| => Texts(rows[i])))
  {
    HeaderReadable();
    ReadDocumentAfter(HeaderCells, rows);
  }

  /** The ten fields of a row, in column order, as a reader takes them back. */
  lemma RowFields(conversationField: string, aiType: string, username: Option<string>, userId: Option<int>,
                  m: Message, env: AdminEnv)
    ensures Texts(RowCells(conversationField, aiType, username, userId, m, env))
         == [conversationField, IntText(m.id), m.role, aiType, OrEmpty(username), UserIdText(userId),
             m.text, env.formatDate(m.createdAt), env.formatDate(m.updatedAt), AnalysisText(m.analysis, env.stringify)]
  {
  }

  /**
   * `/export/:id` reads back as the header and then one record per message
   * of the conversation, in the order listed by `/messages/:id`.
   */
  lemma {:induction false} ExportReadsBack(t: Tables, req: AdminRequest, param: string, env: AdminEnv)
    requires Admitted(req, env)
    requires env.castId(param).Some? && env.castId(param).value in ConversationIds(t.conversations)
    requires var c := FindConversation(t.conversations, env.castId(param).value).value;
      Clean(param) && Clean(c.aiType) && Clean(OrEmpty(c.username))
    requires forall m :: m in t.messages ==> Clean(m.role)
    requires CleanStamps(env)
    ensures var id := env.castId(param).value;
      var c := FindConversation(t.conversations, id).value;
      var ms := MessagesOf(t.messages, id);
      var r := ExportConversationSpec(t, req, param, env);
      && r.Ok?
      && ReadAll(r.body) == Some([Columns] + seq(|ms|, i requires 0 <= i < |ms| => Texts(ExportCells(param, c, ms[i], env))))
  {
    var id := env.castId(param).value;
    var c := FindConversation(t.conversations, id).value;
    var ms := MessagesOf(t.messages, id);
    ExportBody(t, req, param, env);
    ExportRowsReadable(t, param, env);
    ReadBackWithHeader(ExportRows(param, c, ms, env));
    ExportRowsTexts(param, c, ms, env);
  }

  lemma ExportBody(t: Tables, req: AdminRequest, param: string, env: AdminEnv)
    requires Admitted(req, env)
    requires env.castId(param).Some? && env.castId(param).value in ConversationIds(t.conversations)
    ensures var id := env.castId(param).value;
      var c := FindConversation(t.conversations, id).value;
      ExportConversationSpec(t, req, param, env)
        == Ok(WithHeader(ExportRows(param, c, MessagesOf(t.messages, id), env)))
  {
  }

  /**
   * The export lists the conversation's messages, and only those, in
   * strictly increasing creation order.
   */
  lemma ExportInCreationOrder(t: Tables, req: AdminRequest, param: string, env: AdminEnv)
    requires Consistent(t) && Admitted(req, env)
    requires env.castId(param).Some? && env.castId(param).value in ConversationIds(t.conversations)
    ensures var id := env.castId(param).value;
      var c := FindConversation(t.conversations, id).value;
      var ms := MessagesOf(t.messages, id);
      && ExportConversationSpec(t, req, param, env) == Ok(WithHeader(ExportRows(param, c, ms, env)))
      && (forall m :: m in ms <==> m in t.messages && m.conversationId == id)
      && forall i, j :: 0 <= i < j < |ms| ==> ms[i].createdAt < ms[j].createdAt
  {
    ExportBody(t, req, param, env);
    MessagesOfKeepsOrder(t.messages, env.castId(param).value, t.nextMessageId, t.clock);
  }

  lemma ExportRowsReadable(t: Tables, param: string, env: AdminEnv)
    requires env.castId(param).Some? && env.castId(param).value in ConversationIds(t.conversations)
    requires var c := FindConversation(t.conversations, env.castId(param).value).value;
      Clean(param) && Clean(c.aiType) && Clean(OrEmpty(c.username))
    requires forall m :: m in t.messages ==> Clean(m.role)
    requires CleanStamps(env)
    ensures var id := env.castId(param).value;
      var rows := ExportRows(param, FindConversation(t.conversations, id).value, MessagesOf(t.messages, id), env);
      forall i :: 0 <= i < |rows| ==> rows[i] != [] && Readable(rows[i])
  {
    var id := env.castId(param).value;
    var c := FindConversation(t.conversations, id).value;
    var ms := MessagesOf(t.messages, id);
    var rows := ExportRows(param, c, ms, env);
    forall i | 0 <= i < |rows| ensures rows[i] != [] && Readable(rows[i]) {
      assert ms[i] in t.messages;
      RowReadable(param, c.aiType, c.username, c.userId, ms[i], env);
    }
  }

  lemma ExportRowsTexts(param: string, c: Conversation, ms: seq<Message>, env: AdminEnv)
    ensures var rows := ExportRows(param, c, ms, env);
      seq(|rows|, i requires 0 <= i < |rows| => Texts(rows[i]))
        == seq(|ms|, i requires 0 <= i < |ms| => Texts(ExportCells(param, c, ms[i], env)))
  {
  }

  /** With unique ids, `convoMap` holds each conversation's own fields under its id. */
  lemma {:induction false} ConvoMapHoldsEachConversation(cs: seq<Conversation>)
    requires forall i, j :: 0 <= i < j < |cs| ==> cs[i].id < cs[j].id
    ensures forall i :: 0 <= i < |cs| ==> ConvoMapOf(cs)[cs[i].id] == InfoOf(cs[i])
  {
    forall i | 0 <= i < |cs| ensures ConvoMapOf(cs)[cs[i].id] == InfoOf(cs[i]) {
      ConvoMapHoldsConversation(cs, i);
    }
  }

  lemma {:induction false} ConvoMapHoldsConversation(cs: seq<Conversation>, i: nat)
    requires forall i, j :: 0 <= i < j < |cs| ==> cs[i].id < cs[j].id
    requires i < |cs|
    ensures cs[i].id in ConvoMapOf(cs) && ConvoMapOf(cs)[cs[i].id] == InfoOf(cs[i])
  {
    var init := cs[..|cs| - 1];
    var last := cs[|cs| - 1];
    assert ConvoMapOf(cs) == ConvoMapOf(init)[last.id := InfoOf(last)];
    if i < |cs| - 1 {
      assert init[i] == cs[i] && cs[i].id < last.id;
      ConvoMapHoldsConversation(init, i);
    }
  }

  /**
   * On a consistent store, each `/export-all` row is the `/export/:id` row of
   * the same message, requested with its conversation id in decimal.
   */
  lemma ExportAllRowMatchesExport(t: Tables, m: Message, env: AdminEnv)
    requires Consistent(t) && m in t.messages
    ensures FindConversation(t.conversations, m.conversationId).Some?
    ensures AllCells(m, Lookup(ConvoMapOf(t.conversations), m.conversationId), env)
         == ExportCells(IntText(m.conversationId), FindConversation(t.conversations, m.conversationId).value, m, env)
  {
    var k :| 0 <= k < |t.messages| && t.messages[k] == m;
    var c := FindConversation(t.conversations, m.conversationId).value;
    var j :| 0 <= j < |t.conversations| && t.conversations[j] == c;
    ConvoMapHoldsEachConversation(t.conversations);
  }

  /** A message whose conversation is not in `convoMap` is written with empty aiType, username and userId. */
  lemma OrphanRowHasEmptyConversationFields(m: Message, convoMap: map<int, ConvoInfo>, env: AdminEnv)
    requires m.conversationId !in convoMap
    ensures var cells := AllCells(m, Lookup(convoMap, m.conversationId), env);
      cells[3] == Plain("") && cells[4] == Plain("") && cells[5] == Plain("")
  {
  }

  /**
   * `/export-all` reads back as the header and one record per stored
   * message, ordered by conversation id and then creation stamp.
   */
  lemma {:induction false} ExportAllReadsBack(t: Tables, req: AdminRequest, env: AdminEnv)
    requires Consistent(t) && Admitted(req, env)
    requires forall c :: c in t.conversations ==> Clean(c.aiType) && Clean(OrEmpty(c.username))
    requires forall m :: m in t.messages ==> Clean(m.role)
    requires CleanStamps(env)
    ensures var ms := SortForExport(t.messages);
      var convoMap := ConvoMapOf(t.conversations);
      var r := ExportAllSpec(t, req, env);
      && r.Ok?
      && multiset(ms) == multiset(t.messages)
      && ExportSorted(ms)
      && ReadAll(r.body)
         == Some([Columns] + seq(|ms|, i requires 0 <= i < |ms| => Texts(AllCells(ms[i], Lookup(convoMap, ms[i].conversationId), env))))
  {
    var ms := SortForExport(t.messages);
    var convoMap := ConvoMapOf(t.conversations);
    SortForExportIsSorted(t.messages);
    ExportAllBody(t, req, env);
    AllRowsReadable(t, env);
    ReadBackWithHeader(AllRows(ms, convoMap, env));
    AllRowsTexts(ms, convoMap, env);
  }

  lemma ExportAllBody(t: Tables, req: AdminRequest, env: AdminEnv)
    requires Admitted(req, env)
    ensures ExportAllSpec(t, req, env)
         == Ok(WithHeader(AllRows(SortForExport(t.messages), ConvoMapOf(t.conversations), env)))
  {
  }

  lemma AllRowsReadable(t: Tables, env: AdminEnv)
    requires Consistent(t)
    requires forall c :: c in t.conversations ==> Clean(c.aiType) && Clean(OrEmpty(c.username))
    requires forall m :: m in t.messages ==> Clean(m.role)
    requires CleanStamps(env)
    ensures var rows := AllRows(SortForExport(t.messages), ConvoMapOf(t.conversations), env);
      forall i :: 0 <= i < |rows| ==> rows[i] != [] && Readable(rows[i])
  {
    var ms := SortForExport(t.messages);
    var rows := AllRows(ms, ConvoMapOf(t.conversations), env);
    forall i | 0 <= i < |rows| ensures rows[i] != [] && Readable(rows[i]) {
      assert ms[i] in multiset(t.messages);
      AllRowReadable(t, ms[i], env);
    }
  }

  lemma AllRowsTexts(ms: seq<Message>, convoMap: map<int, ConvoInfo>, env: AdminEnv)
    ensures var rows := AllRows(ms, convoMap, env);
      seq(|rows|, i requires 0 <= i < |rows| => Texts(rows[i]))
        == seq(|ms|, i requires 0 <= i < |ms| => Texts(AllCells(ms[i], Lookup(convoMap, ms[i].conversationId), env)))
  {
  }

  lemma AllRowReadable(t: Tables, m: Message, env: AdminEnv)
    requires Consistent(t) && m in multiset(t.messages)
    requires forall c :: c in t.conversations ==> Clean(c.aiType) && Clean(OrEmpty(c.username))
    requires forall m :: m in t.messages ==> Clean(m.role)
    requires CleanStamps(env)
    ensures Readable(AllCells(m, Lookup(ConvoMapOf(t.conversations), m.conversationId), env))
  {
    ExportAllRowMatchesExport(t, m, env);
    var c := FindConversation(t.conversations, m.conversationId).value;
    RowReadable(IntText(m.conversationId), c.aiType, c.username, c.userId, m, env);
  }

  /**
   * The row as written reads as two records: the first eight fields, then a
   * record made of an empty field, updatedAt and the analysis.
   */
  lemma AsWrittenRowSplitsInTwo(m: Message, info: ConvoInfo, env: AdminEnv)
    requires Readable(AllCells(m, info, env))
    ensures var cells := AllCells(m, info, env);
      ReadAll(AllRowTextAsWritten(m, info, env))
        == Some([Texts(cells[..8]), ["", env.formatDate(m.updatedAt), AnalysisText(m.analysis, env.stringify)]])
  {
    var cells := AllCells(m, info, env);
    var first: seq<Cell> := cells[..8];
    var second: seq<Cell> := [Plain("")] + cells[8..];
    var rows: seq<seq<Cell>> := [first, second];
    LineBreakSplitsRecord(first, cells[8..]);
    ReadableSlice(cells, 0, 8);
    ReadableSlice(cells, 8, 10);
    assert cells[8..10] == cells[8..];
    ReadableAfterEmpty(cells[8..]);
    ReadDocument(rows);
    var got := seq(|rows|, i requires 0 <= i < |rows| => Texts(rows[i]));
    assert got == [Texts(first), Texts(second)];
    assert Texts(second) == ["", env.formatDate(m.updatedAt), AnalysisText(m.analysis, env.stringify)];
  }

  /** A line break inside a record splits it in two: the second record starts with an empty field. */
  lemma LineBreakSplitsRecord(first: seq<Cell>, rest: seq<Cell>)
    requires first != [] && rest != []
    ensures JoinCells(first) + ['\n'] + [','] + JoinCells(rest) + ['\n'] == Document([first, [Plain("")] + rest])
  {
    var second := [Plain("")] + rest;
    assert second[1..] == rest;
    assert CellText(second[0]) == [];
    assert JoinCells(second) == [','] + JoinCells(rest);
    SingleDocument(second);
    var rows: seq<seq<Cell>> := [first, second];
    assert rows[1..] == [second];
    assert Document(rows) == RecordText(first) + RecordText(second);
    AppendAssoc(JoinCells(first) + ['\n'], [','], JoinCells(rest), ['\n']);
  }

  // ---------------------------------------------------------------------
  // The `/export-all` body as written

  /** The `forEach` of `/export-all` as written: the header, then each message's row with its stray line break. */
  function AllTextAsWritten(ms: seq<Message>, convoMap: map<int, ConvoInfo>, env: AdminEnv): string {
    if ms == [] then Header()
    else
      var m := ms[|ms| - 1];
      AllTextAsWritten(ms[..|ms| - 1], convoMap, env) + AllRowTextAsWritten(m, Lookup(convoMap, m.conversationId), env)
  }

  /** `GET /export-all` exactly as written. */
  function ExportAllAsWrittenSpec(t: Tables, req: AdminRequest, env: AdminEnv): (r: Response<string>)
    ensures !Admitted(req, env) <==> r == Forbidden
    ensures Admitted(req, env) ==> r.Ok?
  {
    if !Admitted(req, env) then Forbidden
    else Ok(AllTextAsWritten(SortForExport(t.messages), ConvoMapOf(t.conversations), env))
  }

  predicate Wide(rows: seq<seq<Cell>>) {
    forall i :: 0 <= i < |rows| ==> |rows[i]| == 10
  }

  /** The records a reader finds when each ten-cell row is broken after its eighth cell. */
  function SplitRecords(rows: seq<seq<Cell>>): (r: seq<seq<Cell>>)
    requires Wide(rows)
    ensures |r| == 2 * |rows|
    ensures forall i :: 0 <= i < |r| ==> r[i] != []
  {
    if rows == [] then []
    else
      var last := rows[|rows| - 1];
      SplitRecords(rows[..|rows| - 1]) + [last[..8], [Plain("")] + last[8..]]
  }

  /** Row `k` gives records `2k` and `2k + 1`. */
  lemma {:induction false} SplitRecordsAt(rows: seq<seq<Cell>>, k: nat)
    requires Wide(rows) && k < |rows|
    ensures SplitRecords(rows)[2 * k] == rows[k][..8]
    ensures SplitRecords(rows)[2 * k + 1] == [Plain("")] + rows[k][8..]
  {
    var init := rows[..|rows| - 1];
    if k < |rows| - 1 {
      SplitRecordsAt(init, k);
      assert init[k] == rows[k];
    }
  }

  /** Both halves of a readable ten-cell row are readable. */
  lemma SplitRowReadable(cells: seq<Cell>)
    requires Readable(cells) && |cells| == 10
    ensures Readable(cells[..8]) && Readable([Plain("")] + cells[8..])
  {
    ReadableSlice(cells, 0, 8);
    assert cells[0..8] == cells[..8];
    ReadableSlice(cells, 8, 10);
    assert cells[8..10] == cells[8..];
    ReadableAfterEmpty(cells[8..]);
  }

  /** Split records of readable rows are readable. */
  lemma {:induction false} SplitRecordsReadable(rows: seq<seq<Cell>>)
    requires Wide(rows) && forall i :: 0 <= i < |rows| ==> Readable(rows[i])
    ensures forall i :: 0 <= i < |SplitRecords(rows)| ==> SplitRecords(rows)[i] != [] && Readable(SplitRecords(rows)[i])
  {
    if rows != [] {
      var init := rows[..|rows| - 1];
      var last := rows[|rows| - 1];
      SplitRecordsReadable(init);
      SplitRowReadable(last);
      var before := SplitRecords(init);
      var r := SplitRecords(rows);
      assert r == before + [last[..8], [Plain("")] + last[8..]];
      assert forall i :: 0 <= i < |before| ==> r[i] == before[i];
      assert r[|before|] == last[..8];
      assert r[|before| + 1] == [Plain("")] + last[8..];
      forall i | 0 <= i < |r| ensures r[i] != [] && Readable(r[i]) {
        if i < |before| {
          assert r[i] == before[i];
        }
      }
    }
  }

  lemma DocumentPair(a: seq<Cell>, b: seq<Cell>)
    requires a != [] && b != []
    ensures Document([a, b]) == RecordText(a) + RecordText(b)
  {
    var rows: seq<seq<Cell>> := [a, b];
    assert rows[1..] == [b];
    SingleDocument(b);
  }

  lemma AppendAssoc3(a: string, b: string, c: string)
    ensures (a + b) + c == a + (b + c)
  {
  }

  lemma SnocPair(rows: seq<seq<Cell>>, a: seq<Cell>, b: seq<Cell>)
    ensures (rows + [a]) + [b] == rows + [a, b]
  {
  }

  lemma DocumentSnocPair(rows: seq<seq<Cell>>, a: seq<Cell>, b: seq<Cell>)
    requires forall i :: 0 <= i < |rows| ==> rows[i] != []
    requires a != [] && b != []
    ensures Document(rows + [a, b]) == Document(rows) + (RecordText(a) + RecordText(b))
  {
    var rows1 := rows + [a];
    DocumentSnoc(rows, a);
    DocumentSnoc(rows1, b);
    SnocPair(rows, a, b);
    AppendAssoc3(Document(rows), RecordText(a), RecordText(b));
  }

  /** The two records of a broken row are the row's text with a line break before the ninth cell's comma. */
  lemma SplitRecordsText(first: seq<Cell>, rest: seq<Cell>)
    requires first != [] && rest != []
    ensures RecordText(first) + RecordText([Plain("")] + rest)
         == JoinCells(first) + ['\n'] + [','] + JoinCells(rest) + ['\n']
  {
    LineBreakSplitsRecord(first, rest);
    DocumentPair(first, [Plain("")] + rest);
  }

  lemma WithHeaderSplitRow(before: seq<seq<Cell>>, first: seq<Cell>, rest: seq<Cell>)
    requires forall i :: 0 <= i < |before| ==> before[i] != []
    requires first != [] && rest != []
    ensures WithHeader(before + [first, [Plain("")] + rest])
         == WithHeader(before) + (JoinCells(first) + ['\n'] + [','] + JoinCells(rest) + ['\n'])
  {
    var pair: seq<seq<Cell>> := [first, [Plain("")] + rest];
    assert [HeaderCells] + (before + pair) == ([HeaderCells] + before) + pair;
    DocumentSnocPair([HeaderCells] + before, first, [Plain("")] + rest);
    SplitRecordsText(first, rest);
  }

  lemma AllRowsWide(ms: seq<Message>, convoMap: map<int, ConvoInfo>, env: AdminEnv)
    ensures Wide(AllRows(ms, convoMap, env))
  {
  }

  /** The as-written body is the header followed by the split records of the corrected rows. */
  lemma {:induction false} AllTextAsWrittenSplits(ms: seq<Message>, convoMap: map<int, ConvoInfo>, env: AdminEnv)
    ensures Wide(AllRows(ms, convoMap, env))
    ensures AllTextAsWritten(ms, convoMap, env) == WithHeader(SplitRecords(AllRows(ms, convoMap, env)))
  {
    AllRowsWide(ms, convoMap, env);
    if ms == [] {
      HeaderOnly();
    } else {
      var n := |ms| - 1;
      var init := ms[..n];
      var m := ms[n];
      var cells := AllCells(m, Lookup(convoMap, m.conversationId), env);
      AllTextAsWrittenSplits(init, convoMap, env);
      AllRowsSnoc(ms, n, convoMap, env);
      assert ms[..n + 1] == ms;
      var rows := AllRows(ms, convoMap, env);
      assert rows[..n] == AllRows(init, convoMap, env);
      assert rows[n] == cells;
      WithHeaderSplitRow(SplitRecords(rows[..n]), cells[..8], cells[8..]);
    }
  }

  /** Broken rows read back as the header and two records per row: eight fields, then three starting empty. */
  lemma AsWrittenReadsAsPairs(rows: seq<seq<Cell>>)
    requires Wide(rows) && forall i :: 0 <= i < |rows| ==> Readable(rows[i])
    ensures ReadAll(WithHeader(SplitRecords(rows))).Some?
    ensures var records := ReadAll(WithHeader(SplitRecords(rows))).value;
      && |records| == 1 + 2 * |rows|
      && records[0] == Columns
      && forall k :: 0 <= k < |rows| ==>
           |records[1 + 2 * k]| == 8 && |records[2 + 2 * k]| == 3 && records[2 + 2 * k][0] == ""
  {
    SplitRecordsReadable(rows);
    assert forall i :: 0 <= i < |SplitRecords(rows)| ==> SplitRecords(rows)[i] != [] && Readable(SplitRecords(rows)[i]);
    ReadBackWithHeader(SplitRecords(rows));
    SplitRecordsShape(rows);
  }

  /** The values of the split records: eight fields, then three starting with an empty one, per row. */
  lemma SplitRecordsShape(rows: seq<seq<Cell>>)
    requires Wide(rows)
    ensures var split := SplitRecords(rows);
      var records := [Columns] + seq(|split|, i requires 0 <= i < |split| => Texts(split[i]));
      forall k :: 0 <= k < |rows| ==>
        |records[1 + 2 * k]| == 8 && |records[2 + 2 * k]| == 3 && records[2 + 2 * k][0] == ""
  {
    var split := SplitRecords(rows);
    var records := [Columns] + seq(|split|, i requires 0 <= i < |split| => Texts(split[i]));
    forall k | 0 <= k < |rows|
      ensures |records[1 + 2 * k]| == 8 && |records[2 + 2 * k]| == 3 && records[2 + 2 * k][0] == ""
    {
      SplitRecordsAt(rows, k);
      assert records[1 + 2 * k] == Texts(split[2 * k]);
      assert records[2 + 2 * k] == Texts(split[2 * k + 1]);
    }
  }

  /**
   * Read back, the as-written `/export-all` body holds the header and then
   * two records per message instead of one: the first eight fields, then
   * a three-field record that starts with an empty field.
   */
  lemma {:induction false} AsWrittenExportAllReadsAsPairs(t: Tables, req: AdminRequest, env: AdminEnv)
    requires Consistent(t) && Admitted(req, env)
    requires forall c :: c in t.conversations ==> Clean(c.aiType) && Clean(OrEmpty(c.username))
    requires forall m :: m in t.messages ==> Clean(m.role)
    requires CleanStamps(env)
    ensures var r := ExportAllAsWrittenSpec(t, req, env);
      && r.Ok? && ReadAll(r.body).Some?
      && var records := ReadAll(r.body).value;
      && |records| == 1 + 2 * |t.messages|
      && records[0] == Columns
      && forall k :: 0 <= k < |t.messages| ==>
           |records[1 + 2 * k]| == 8 && |records[2 + 2 * k]| == 3 && records[2 + 2 * k][0] == ""
  {
    var ms := SortForExport(t.messages);
    assert |ms| == |t.messages| by {
      assert |multiset(ms)| == |multiset(t.messages)|;
    }
    SortedRowsReady(t, env);
    AllTextAsWrittenSplits(ms, ConvoMapOf(t.conversations), env);
    AsWrittenReadsAsPairs(AllRows(ms, ConvoMapOf(t.conversations), env));
  }

  lemma SortedRowsReady(t: Tables, env: AdminEnv)
    requires Consistent(t)
    requires forall c :: c in t.conversations ==> Clean(c.aiType) && Clean(OrEmpty(c.username))
    requires forall m :: m in t.messages ==> Clean(m.role)
    requires CleanStamps(env)
    ensures Wide(AllRows(SortForExport(t.messages), ConvoMapOf(t.conversations), env))
    ensures forall i :: 0 <= i < |AllRows(SortForExport(t.messages), ConvoMapOf(t.conversations), env)| ==>
      Readable(AllRows(SortForExport(t.messages), ConvoMapOf(t.conversations), env)[i])
  {
    AllRowsReadable(t, env);
    AllRowsWide(SortForExport(t.messages), ConvoMapOf(t.conversations), env);
  }
}
