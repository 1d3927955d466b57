# Companion-disclosure server: a verified model of its core

This project is a Dafny model of the Express server behind a study in which
people talk to one of two chat agents: a *companion* agent and a
*non-companion* agent. Every chat turn goes through the same steps:

1. **Stage-1 analysis.** An emotion classifier labels the user's text. A fixed
   table maps that label to an arousal bucket. A language-model extraction
   adds a disclosure level, a distress score and a help intent. These five
   fields make up one analysis record.
2. **Orchestration.** The turn finds or creates the conversation and stores the
   user's message together with its analysis. It then asks the generator for a
   reply, conditioned on the analysis, and stores that reply as the assistant's
   message.
3. **Storage.** There are two tables: conversations and messages. Both use
   auto-increment ids and creation stamps. Each message carries a foreign key to
   its conversation, and deleting a conversation deletes its messages too.
4. **Research admin routes.** A token gate protects them. Behind it are a
   conversation listing, a per-conversation message listing, a CSV export of one
   conversation, and a CSV export of every message.

Modules:

| module | file | what it holds |
|---|---|---|
| `Wrappers` | `wrappers.dfy` | `Option` and `Result` |
| `Js` | `js.dfy` | The JavaScript value semantics the server relies on:<br>- JSON values and `undefined`<br>- property reads that throw on `null`/`undefined`<br>- `String(v)` in template literals<br>- ASCII `toLowerCase` |
| `Stage1Analyzer` | `stage1.dfy` | The analysis pipeline. The classifier, the extractor and `JSON.parse` are function-valued parameters. |
| `Models` | `models.dfy` | The store schema as a `Tables` value and its invariant `Consistent`.<br>The `Database` class, whose methods change the tables in place and are proved against the pure `Insert…`/`Delete…` functions. |
| `Policy` | `policy.dfy` | What separates the two agents: the stored `aiType`, the sampling temperature, the system rules, and which analysis fields go into the context message. |
| `Turn` | `turn.dfy` | The `/respond` orchestration.<br>`TurnSpec` is the function stating a turn's outcome.<br>`Respond` is the method that runs the steps against a `Database` and is proved equal to `TurnSpec`. |
| `Csv` | `csv.dfy` | The CSV cell encoding used by the exports. It includes an independent RFC 4180-style reader (`ReadAll`) that serves as the reference for the written files. |
| `Admin` | `admin.dfy` | The admin gate, the two listings and the two CSV exports. |

## Model

| member | source | states |
|---|---|---|
| `Js.GetProp` | server/utils/stage1Analyzer.js:80-82 | Reading a field of `null`/`undefined` throws a TypeError.<br>A missing field of an object yields `undefined`.<br>A present field yields its value. |
| `Js.LowerChar` | server/utils/stage1Analyzer.js:24 | Upper-case ASCII letters map to their lower-case letters; every other character is unchanged. |
| `Js.ToLower` | server/utils/stage1Analyzer.js:24 | Lower-casing keeps the length and maps every character with `LowerChar`. |
| `Js.Render` | server/routes/companion.js:100-101 | No contract of its own. `Js.RenderAsJavaScript` states what it prints. |
| `Js.RenderAsJavaScript` | server/routes/companion.js:100-101 | A template prints `undefined` as "undefined" and `null` as "null".<br>Arrays print comma-joined and flattened, with null and undefined elements empty.<br>An object prints as "[object Object]". |
| `Js.ToLowerIsLowerAndIdempotent` | server/utils/stage1Analyzer.js:24 | A lower-cased label has no upper-case letter left, and lower-casing it again changes nothing. |
| `Js.LowerStringIsFixed` | server/utils/stage1Analyzer.js:24 | A label that is already lower case is unchanged by lower-casing. |
| `Stage1Analyzer.EstimateArousal` | server/utils/stage1Analyzer.js:32-38 | High exactly for anger and fear.<br>Low exactly for sadness, guilt, shame and neutral.<br>Medium exactly for every other label. |
| `Stage1Analyzer.AnalyzeEmotion` | server/utils/stage1Analyzer.js:12-27 | A failed classifier request is rethrown.<br>An empty outer or inner list throws.<br>A successful reply whose first list is non-empty always succeeds, and the result is then the first entry of the first list: its label lower-cased and its score. |
| `Stage1Analyzer.AnalyzeDisclosure` | server/utils/stage1Analyzer.js:43-66 | A failed extraction request is rethrown.<br>A reply that is not valid JSON yields exactly the fallback `{unknown, 0, false}`.<br>Otherwise the parsed value is returned unchanged. |
| `Stage1Analyzer.AnalyzeStage1` | server/utils/stage1Analyzer.js:71-91 | The record exists exactly when:<br>- both steps succeed, and<br>- the parsed disclosure value is neither `null` nor `undefined`.<br>A record is coherent: its label is lower case and its arousal is the table entry of that label.<br>Its other fields are the label and the three disclosure properties as read. |
| `Stage1Analyzer.AnalyzeRoute` | server/routes/companion.js:13-22 | `/analyze` answers with the Stage-1 record exactly when the analysis succeeds, and with a 500 otherwise. |
| `Stage1Analyzer.CapitalisedLabelsUseLowerCaseTable` | server/utils/stage1Analyzer.js:73-74 | Arousal is looked up with the lower-cased label, so a label of "Anger" still gives high arousal. |
| `Stage1Analyzer.AngerInTitleCaseIsHigh` | server/utils/stage1Analyzer.js:22-35 | The label "Anger", once lower-cased, is in the high-arousal list. |
| `Stage1Analyzer.UnparsableExtractionFallsBack` | server/utils/stage1Analyzer.js:56-65 | An unparsable extraction reply never fails the analysis. The record then holds exactly the fallback disclosure fields. |
| `Stage1Analyzer.RequestFailuresAreRethrown` | server/utils/stage1Analyzer.js:87-90 | A failure of either request reaches the caller unchanged. |
| `Stage1Analyzer.NullExtractionThrows` | server/utils/stage1Analyzer.js:56-83 | A reply that parses to `null` escapes the fallback and makes the record assembly throw. |
| `Stage1Analyzer.DisclosureFieldsAreNotValidated` | server/utils/stage1Analyzer.js:77-83 | Parsed `disclosure_level`, `distress_score` and `help_intent` are copied without validation, and each missing one is stored as `undefined`. |
| `Stage1Analyzer.ConfidenceIsDropped` | server/utils/stage1Analyzer.js:77-83 | Two classifier replies that agree on the top label give the same record, whatever their scores. |
| `Models.FindConversation` | server/routes/admin.js:107-111 | The lookup finds a row exactly when the id is in the table, and the row it finds carries that id. |
| `Models.MessagesOf` | server/routes/admin.js:114-117 | The result holds exactly the messages of the given conversation. |
| `Models.NullIfEmpty` | server/routes/companion.js:37 | The username falls back to `null`: the empty string and absence both become `null`; any other username is kept. |
| `Models.InsertConversation` | server/models/conversation.js:3-17 | The new row takes the next id, the given user id and username, and the `aiType`, which defaults to "companion".<br>Both stamps are the current clock tick.<br>The new tables are exactly the old ones with the row appended, the id counter advanced by one and the clock advanced by one tick. |
| `Models.InsertMessage` | server/models/message.js:3-31 | A `null` text is a not-null violation.<br>An unknown conversation id is a foreign-key violation.<br>Both leave the tables unchanged.<br>Otherwise the message is appended with the next id and a fresh stamp. |
| `Models.WithoutConversation` | server/models/conversation.js:19-26 | Removes exactly the rows carrying the id. |
| `Models.WithoutMessagesOf` | server/models/conversation.js:19-26 | Removes exactly the messages of the conversation (the cascade). |
| `Models.DeleteConversation` | server/models/conversation.js:19-26 | Deleting a conversation removes exactly that conversation's row and, by the cascade, exactly its messages.<br>The counters and the clock are unchanged. |
| `Models.Database.constructor` | server/models/conversation.js:3-17 | A new store is empty and consistent. |
| `Models.Database.CreateConversation` | server/models/conversation.js:3-17 | The in-place insert equals `InsertConversation` on the old tables and keeps the store consistent. |
| `Models.Database.CreateMessage` | server/models/message.js:3-31 | The in-place insert equals `InsertMessage` on the old tables and keeps the store consistent. |
| `Models.Database.Destroy` | server/models/conversation.js:19-26 | The in-place delete equals `DeleteConversation` on the old tables and keeps the store consistent. |
| `Models.WithoutConversationKeepsOrder` | server/models/conversation.js:19-26 | Deleting rows keeps ids and creation stamps strictly increasing. |
| `Models.WithoutMessagesKeepsOrder` | server/models/conversation.js:19-26 | Deleting messages keeps ids and creation stamps strictly increasing. |
| `Models.MessagesOfKeepsOrder` | server/routes/admin.js:85-90 | One conversation's messages are still in id order and in creation order. |
| `Models.InsertConversationKeepsConsistent` | server/models/conversation.js:3-17 | Creating a conversation keeps the store consistent:<br>- the new id was not in use;<br>- the id set grows by exactly that id. |
| `Models.InsertMessageKeepsConsistent` | server/models/message.js:26-31 | Creating a message, or failing to, keeps the store consistent. Consistency includes every message naming an existing conversation. |
| `Models.DeletePreservesValid` | server/models/conversation.js:19-26 | A cascading delete keeps the store consistent. No message of the deleted conversation remains, and its id is gone. |
| `Policy.BuildRequest` | server/routes/companion.js:93-104 | Both agents use the same model.<br>Temperature is 0.8 for the companion and 0.2 for the non-companion.<br>Each agent uses its own system rules.<br>The user message is the context message built from the visible text, the analysis, the latest user text and the number text. |
| `Policy.PolicyOf` | server/routes/companion.js:93-101 | The per-agent table of model, temperature, system rules and context fields. No contract of its own. `Policy.BuildRequest`, `Policy.AiTypesAreDistinct`, `Policy.CompanionContextLayout` and `Policy.NonCompanionContextLayout` state what it selects. |
| `Policy.ContextMessage` | server/routes/companion.js:100-101 | The user message for the generator. No contract of its own. `Policy.CompanionContextLayout` and `Policy.NonCompanionContextLayout` state it character for character. `Policy.ContextEndsWithUtterance` states the quoted utterance it ends with. |
| `Policy.AiTypesAreDistinct` | server/routes/noncompanion.js:37-42 | The two agents store the distinct `aiType` values "companion" and "non-companion". |
| `Policy.CompanionContextLayout` | server/routes/companion.js:100-101 | The companion's context message names all five analysis fields in a fixed order, followed by the quoted utterance. |
| `Policy.NonCompanionContextLayout` | server/routes/noncompanion.js:87-88 | The non-companion's context message names only emotion, arousal and disclosure, followed by the quoted utterance. |
| `Policy.NonCompanionIgnoresDistress` | server/routes/noncompanion.js:80-91 | Two analyses that differ only in distress and help intent give the non-companion the same generation request. |
| `Policy.ContextEndsWithUtterance` | server/routes/companion.js:100-101 | Both context messages end with the user's text, inside quotes, after the marker "User said". The last character is the closing quote. |
| `Turn.Resolve` | server/routes/companion.js:33-41 | A falsy id (absent or 0) creates a conversation of the agent's type and uses the new id.<br>A truthy id is used as given and nothing is created.<br>No message is written. |
| `Turn.TurnSpec` | server/routes/companion.js:28-126 | The whole `/respond` handler on the store's contents. No contract of its own. It equals `Turn.Respond`, and these lemmas state what it does: `Turn.TurnKeepsConsistent`, `Turn.TurnIsAppendOnly`, `Turn.SuccessfulTurnAppendsPair`, `Turn.FailedGenerationKeepsUserMessage`, `Turn.FailedAnalysisWritesNoMessage`, `Turn.UnknownConversationWritesNothing` and `Turn.FirstTurnStartsWithUser`. |
| `Turn.StoreTurn` | server/routes/companion.js:55-121 | The steps after Stage 1. No contract of its own. It equals `Turn.StoreAndReply`, and these lemmas state what it does: `Turn.StoreTurnKeepsConsistent`, `Turn.StoreTurnIsAppendOnly`, `Turn.StoreTurnAppendsPair` and `Turn.StoreTurnKeepsUserMessage`. |
| `Turn.StoreReply` | server/routes/companion.js:108-121 | The assistant row and the answer. No contract of its own. It is stated through `Turn.StoreTurnAppendsPair` (the row is stored and the reply answered) and `Turn.StoreTurnKeepsUserMessage` (a null reply fails the not-null check). |
| `Turn.Respond` | server/routes/companion.js:28-126 | The step-by-step turn run against the store leaves exactly the tables and returns exactly the response of `TurnSpec`, and it keeps the store consistent. |
| `Turn.StoreAndReply` | server/routes/companion.js:55-121 | The steps after Stage 1 leave exactly the tables and return exactly the response of `StoreTurn`:<br>- the user message;<br>- generation;<br>- the assistant message;<br>- the reply. |
| `Turn.TurnKeepsConsistent` | server/routes/companion.js:28-126 | Every turn, successful or not, keeps the store consistent. |
| `Turn.StoreTurnKeepsConsistent` | server/routes/companion.js:55-114 | The storing half of a turn keeps the store consistent. |
| `Turn.FreshIdHasNoMessages` | server/routes/companion.js:35-40 | A newly created conversation has no messages yet. |
| `Turn.TurnConversationRows` | server/routes/noncompanion.js:36-44 | A turn adds exactly one conversation when the id is falsy and none otherwise.<br>The new row has a fresh id, the agent's `aiType` and a `null` user id. |
| `Turn.FailedAnalysisWritesNoMessage` | server/routes/companion.js:44 | When Stage 1 fails, no message is written and the turn answers with that error. A conversation created for the turn stays behind, empty. |
| `Turn.UnknownConversationWritesNothing` | server/routes/companion.js:55-60 | A truthy id naming no conversation fails on the foreign key at the user message. Nothing at all is written. |
| `Turn.ResolvedIdExists` | server/routes/companion.js:33-41 | After resolution, the id the turn uses names an existing conversation, unless the caller passed an unknown one. |
| `Turn.StoreTurnKeepsUserMessage` | server/routes/companion.js:93-114 | When generation fails or yields no text, only the user message is stored, and the turn answers with the matching error. |
| `Turn.StoreTurnAppendsPair` | server/routes/companion.js:55-121 | A successful generation appends the user row and then the assistant row, and replies with the id, the analysis and the text. |
| `Turn.FailedGenerationKeepsUserMessage` | server/routes/noncompanion.js:50-112 | Over a whole turn, a failed or empty generation leaves exactly the user message behind. |
| `Turn.SuccessfulTurnAppendsPair` | server/routes/noncompanion.js:50-108 | Over a whole turn, success appends exactly the user and assistant pair. The stored analysis and reply equal those in the response. |
| `Turn.StoreTurnIsAppendOnly` | server/routes/companion.js:55-114 | Storing never changes conversations, never rewrites messages, and adds at most two. |
| `Turn.TurnIsAppendOnly` | server/routes/companion.js:28-126 | A turn only appends: at most one conversation and at most two messages. |
| `Turn.ReusedIdIsNotChecked` | server/routes/companion.js:33-60 | An existing conversation of the other agent's type is used as is. Nothing checks or changes its `aiType`. |
| `Turn.FirstTurnStartsWithUser` | server/routes/companion.js:28-121 | A successful first turn leaves a new conversation holding exactly a user message with the analysis, then an assistant message with the reply. |
| `Turn.MessagesOfAppend` | server/routes/admin.js:114-117 | Filtering messages by conversation distributes over appending. |
| `Csv.Escape` | server/routes/admin.js:125 | Doubling quotes never shortens a text and keeps every other character. |
| `Csv.EscapeRoundTrip` | server/routes/admin.js:125-128 | Undoubling the quotes gives back the original text. |
| `Csv.EscapedQuotesArePaired` | server/routes/admin.js:125-128 | The escaped text holds exactly twice as many quote characters as the original. |
| `Csv.ReadPlain` | server/routes/admin.js:130-134 | An unquoted field ends at the first comma or line break, and the text is split without loss. |
| `Csv.ReadField` | server/routes/admin.js:130-134 | A field that does not begin with a quote is read as unquoted. |
| `Csv.ReadRecord` | server/routes/admin.js:130-134 | A record has at least one field, and reading it consumes input. |
| `Csv.ReadPlainClean` | server/routes/admin.js:130-131 | An unquoted field without separators reads back as exactly itself. |
| `Csv.ReadQuotedEscaped` | server/routes/admin.js:125-132 | A quoted, escaped field reads back as the original text, whatever quotes, commas or line breaks it holds. |
| `Csv.ReadCell` | server/routes/admin.js:130-134 | A cell of the row template reads back as its text, followed by the rest of the input. |
| `Csv.ReadRecordText` | server/routes/admin.js:130-134 | A row of readable cells reads back as the list of its cell texts. |
| `Csv.ReadDocument` | server/routes/admin.js:124-135 | A sequence of rows reads back as the sequence of their field lists. |
| `Csv.DocumentSnoc` | server/routes/admin.js:124-135 | Appending a row appends exactly that row's text. |
| `Csv.IntText` | server/routes/admin.js:130 | A rendered id is a non-empty run of characters that needs no quoting. |
| `Csv.NatTextValue` | server/routes/admin.js:130 | A rendered id reads back as the same number. |
| `Csv.IntTextValue` | server/routes/admin.js:130-132 | Any integer's text reads back as the integer: its digits, after a minus sign when negative. |
| `Admin.AdminCheck` | server/routes/admin.js:15-24 | Admission requires a configured, non-empty `ADMIN_TOKEN`.<br>A truthy header token alone decides, and a query token cannot overrule a wrong header.<br>Otherwise the query token must equal the configured one. |
| `Admin.NewestFirst` | server/routes/admin.js:70-72 | The listing is the table in reverse. |
| `Admin.ListConversations` | server/routes/admin.js:68-79 | Forbidden exactly when the token check fails. Otherwise the answer holds the conversations as a permutation. |
| `Admin.ListMessages` | server/routes/admin.js:85-97 | Forbidden exactly when the token check fails.<br>An id the store cannot read gives a 500.<br>Otherwise the answer holds exactly that conversation's messages. |
| `Admin.ConversationsNewestFirst` | server/routes/admin.js:68-74 | The conversation listing is a permutation of the table in strictly decreasing creation order. |
| `Admin.MessagesOldestFirst` | server/routes/admin.js:85-92 | The message listing is exactly that conversation's messages in strictly increasing creation order. |
| `Admin.UserIdText` | server/routes/admin.js:130-132 | An absent user id and the id 0 both print as empty, and the printed id needs no quoting.<br>A positive id prints as decimal digits that read back as the id; a negative one prints as a minus sign followed by such digits. |
| `Admin.OrEmpty` | server/routes/admin.js:130-131 | An absent username prints as the empty string; a present one prints as itself. |
| `Admin.RowCells` | server/routes/admin.js:130-134 | A row always has ten cells, one per header column. |
| `Admin.ExportCells` | server/routes/admin.js:124-134 | The `/export/:id` row template. No contract of its own. Its ten fields are stated by `Admin.RowFields` and read back by `Admin.ExportReadsBack`. |
| `Admin.ExportRows` | server/routes/admin.js:124-135 | One row per message, in the order given. |
| `Admin.ExportConversationSpec` | server/routes/admin.js:102-149 | Forbidden exactly when the token check fails.<br>A 500 when the store cannot read the id.<br>Not-found exactly when no conversation has that id. |
| `Admin.ExportConversation` | server/routes/admin.js:102-149 | The route's loop that builds the file by string appends yields exactly `ExportConversationSpec`. |
| `Admin.WriteExportRows` | server/routes/admin.js:120-135 | The header line followed by one record per message, appended in message order. |
| `Admin.ExportBody` | server/routes/admin.js:107-144 | An admitted export of an existing conversation is the header followed by one row per message of that conversation, in table order. |
| `Admin.ExportInCreationOrder` | server/routes/admin.js:114-134 | In a consistent store, the exported messages are exactly the messages of that conversation.<br>Their creation stamps strictly increase, so the rows come in creation order. |
| `Admin.ExportReadsBack` | server/routes/admin.js:102-144 | Reading the exported file with a CSV reader gives the ten column names, then one record per message of that conversation holding exactly its ten cell texts.<br>This includes message texts and analyses that contain quotes, commas or line breaks. |
| `Admin.RowFields` | server/routes/admin.js:130-134 | The ten fields of a row are, in order: the conversation id, message id, role, aiType, username, user id, text, both stamps and the analysis. |
| `Admin.HeaderReadable` | server/routes/admin.js:120-121 | The header row reads back as exactly the ten column names. |
| `Admin.Header` | server/routes/admin.js:120-121 | The header line of both exports. No contract of its own. `Admin.HeaderReadable` states that it reads back as the ten column names. |
| `Admin.ConvoMapOf` | server/routes/admin.js:160-167 | The map has one key per conversation id. |
| `Admin.Lookup` | server/routes/admin.js:183 | The map entry for a known id, empty fields for an unknown one. |
| `Admin.BuildConvoMap` | server/routes/admin.js:160-167 | The loop builds exactly `ConvoMapOf` of the conversation table. |
| `Admin.ConvoMapHoldsEachConversation` | server/routes/admin.js:160-167 | Every conversation's entry holds that conversation's `aiType`, username and user id. |
| `Admin.InsertSorted` | server/routes/admin.js:170-175 | Insertion adds exactly one element. |
| `Admin.SortForExport` | server/routes/admin.js:170-175 | The export order is a permutation of the messages. |
| `Admin.SortForExportIsSorted` | server/routes/admin.js:170-175 | The export order is by conversation id, then by creation stamp. |
| `Admin.InsertSortedKeepsOrder` | server/routes/admin.js:170-175 | Inserting into a sorted list keeps it sorted. |
| `Admin.AllRows` | server/routes/admin.js:182-195 | One row per message, each taking its conversation fields from the map. |
| `Admin.AllCells` | server/routes/admin.js:182-194 | The corrected `/export-all` row. No contract of its own. `Admin.ExportAllRowMatchesExport` states that it equals the `/export/:id` row in a consistent store. `Admin.OrphanRowHasEmptyConversationFields` states its empty fields for an orphan. |
| `Admin.ExportAllSpec` | server/routes/admin.js:154-209 | Forbidden exactly when the token check fails. Otherwise always a file. |
| `Admin.ExportAll` | server/routes/admin.js:154-209 | The route's two loops build exactly `ExportAllSpec`:<br>- the map;<br>- the rows with the corrected template. |
| `Admin.WriteAllRows` | server/routes/admin.js:178-195 | The header followed by one record per message, appended in the export order. |
| `Admin.ExportAllBody` | server/routes/admin.js:157-204 | An admitted full export is the header followed by the rows of all messages in export order. |
| `Admin.ExportAllReadsBack` | server/routes/admin.js:154-204 | Reading the full export back gives the column names and then one ten-field record per message.<br>The records come in the sorted order, which is a permutation of the message table. |
| `Admin.ExportAllRowMatchesExport` | server/routes/admin.js:182-195 | In a consistent store, a message's row in the full export equals its row in its own conversation's export. |
| `Admin.OrphanRowHasEmptyConversationFields` | server/routes/admin.js:183 | A message whose conversation is not in the map gets empty `aiType`, username and user id. |
| `Admin.AsWrittenRowSplitsInTwo` | server/routes/admin.js:189-194 | The row template as written reads back as two records:<br>- the first eight fields;<br>- then an empty field, `updatedAt` and the analysis. |
| `Admin.AllRowTextAsWritten` | server/routes/admin.js:189-194 | The `/export-all` row as its template is written. No contract of its own. `Admin.AsWrittenRowSplitsInTwo` states that it reads back as two records. |
| `Admin.AllTextAsWritten` | server/routes/admin.js:178-195 | The whole `/export-all` text as written. No contract of its own. `Admin.AllTextAsWrittenSplits` and `Admin.AsWrittenExportAllReadsAsPairs` state its records. |
| `Admin.ExportAllAsWrittenSpec` | server/routes/admin.js:154-209 | The route with the row template as written: forbidden exactly when the token check fails, otherwise always a file. |
| `Admin.SplitRecords` | server/routes/admin.js:189-194 | Splitting each ten-cell row at the line break gives two records per row, none of them empty. |
| `Admin.SplitRecordsAt` | server/routes/admin.js:189-194 | Row k becomes records 2k and 2k+1: its first eight cells, then an empty cell followed by its last two cells. |
| `Admin.AllTextAsWrittenSplits` | server/routes/admin.js:178-195 | The file the route writes as written is the header followed by the split records of all the rows. |
| `Admin.AsWrittenReadsAsPairs` | server/routes/admin.js:178-195 | Reading split rows back gives the column names and then two records per row: eight fields, then three fields starting with an empty one. |
| `Admin.AsWrittenExportAllReadsAsPairs` | server/routes/admin.js:154-204 | An admitted full export as written reads back as 1 + 2N records for N messages.<br>After the column names, each message gives a record of eight fields and then a record of three fields whose first field is empty. |
| `Admin.LineBreakSplitsRecord` | server/routes/admin.js:193-194 | A line break placed before a comma ends the record, and the next record starts with an empty field. |

## Left out

- The system prompts of the two agents are kept as two distinct constants. Their wording is not reproduced, because it is free text that no part of the model depends on.
- Requests to the classifier, extractor and generator are parameters, as are `JSON.parse`, `JSON.stringify`, `formatDateEST` and number-to-text rendering:
  - network calls and their failures are inputs to the model;
  - date formatting and time zones are not modelled.
- Wall-clock time is replaced by a logical clock that ticks once per insert. A row's `createdAt` and `updatedAt` are both that tick.
- Only the not-null and foreign-key database failures are modelled. Failures of the connection, unique-key violations and migrations are left out.
- Concurrency between requests is left out. Each turn runs alone, start to finish.
- `Js.ToLower` maps only ASCII letters. JavaScript's `toLowerCase` also maps non-ASCII letters.
- The store's reading of a path parameter as an id (`castId`) is a parameter. Sequelize's casting rules are not modelled.
- Query-string tokens given as arrays are not modelled. Tokens are absent or strings.
- The `/test` admin route (admin.js:59-61) and the HTTP headers of the CSV responses are left out: they carry no logic.
- `server/routes/neutral.js`, `server/index.js`, the migrations and the client are not part of this model.
- `Models.Database.Destroy` models the cascading delete declared in the schema, although no route deletes a conversation.
- Two read-back lemmas require every unquoted field to be clean: no comma, quote or line break. The fields concerned are `aiType`, username and role, and both lemmas also require clean stamps. `Admin.ExportReadsBack` also requires a clean id parameter. `Admin.ExportAllReadsBack` does not need one, because it writes ids as integer text, which is always clean.
  - `Admin.ExportReadsBack` holds under these requirements.
  - `Admin.ExportAllReadsBack` holds under the same requirements.
  - The server writes those fields without quoting, so a username holding a comma shifts the columns. These lemmas say nothing about such data.
- `Csv.Escape`: the contract states length and character preservation. Its full meaning is carried by `Csv.EscapeRoundTrip` and `Csv.ReadQuotedEscaped`.
- `Admin.ExportAllSpec`: the contract states only the gate. The file's content is stated by `Admin.ExportAllBody` and `Admin.ExportAllReadsBack`.

## Findings

| source | as written | input that shows it | evidently intended | confidence | as-written member | corrected member |
|---|---|---|---|---|---|---|
| server/routes/admin.js:193-194 | The `/export-all` row template has a line break between the `createdAt` cell and `,updatedAt`. Every message therefore becomes two CSV records: eight fields, then a record starting with an empty field. | any store holding one message; its row reads back as two records | the same ten-field row as `/export/:id` (admin.js:130-134), with the header's ten columns | not executed | `Admin.AsWrittenExportAllReadsAsPairs` | `Admin.ExportAllReadsBack` |
