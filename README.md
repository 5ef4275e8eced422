# Customer-support console: a Dafny model

This project models the decision logic of a customer-support console built as a
Next.js page (`app/page.tsx`) with a small knowledge-base route handler
(`app/api/rag/route.ts`).

On the page, an operator picks a conversation, types a message and sends it. The
message is appended at once. A coordinator agent is then called, and its reply is
normalized into a text and a classification (topic, urgency, escalation,
resolution). That reply is reconciled into the conversation store. Meanwhile an
activity log collects lifecycle entries and the frames of an event stream. The
page also has:

- manual Escalate and Mark Resolved buttons;
- a searchable conversation list and ticket counters;
- avatar initials and colours;
- a live-chat widget that shares the reply precedence;
- a knowledge-base screen (document list, delete, test query);
- a settings screen with escalation keywords.

The route lists, uploads and deletes knowledge-base documents through an upstream
service.

Modules, one per file:

- `Wrappers` holds `Option` and `Result`.
- `Text` holds JavaScript string semantics:
  - truthiness of optional strings and `||` chains;
  - ASCII `toLowerCase`/`toUpperCase`;
  - `trim` over the ECMAScript white-space set;
  - `includes`, `split`/`join` and `pop`, and `slice`.
- `Lists` holds `filter` and its laws.
- `Conversations` holds the conversation store, the operator buttons, the list filter and the counters.
- `Display` holds `getInitials` and `getAvatarColor`. The colour is a loop method over explicit ECMAScript ToInt32 arithmetic.
- `Agent` holds the agent result payload, the response normalizer and the live-chat reply selection.
- `Activity` holds the activity entries and the stream-frame classifier.
- `Reconciler` holds the send lifecycle:
  - pure functions for each step's effect;
  - the class `Console`, which holds the page state and performs the steps in place, with `modifies` frames.
- `RagRoute` holds the GET, POST and DELETE handlers as functions from inputs to responses.
- `KnowledgeClient` holds how the knowledge-base screen reads the route's replies, removes a deleted document and renders a test answer.
- `Settings` holds the escalation keywords.

Foreign calls are replaced by input datatypes: the agent call, `fetch`, the
WebSocket, `FormData`, `request.json()` and `response.text()`. A call outcome
either returns a value or throws. Ids, timestamps and clock readings are
parameters.

## Model

| member | source | states |
|---|---|---|
| Text.TrimEmptyIff | app/page.tsx:368 | `!s.trim()` holds exactly when every character of `s` is white space |
| Text.TrimSpec | app/page.tsx:373 | the trimmed text is the slice of the input between its leading and trailing white space, and neither starts nor ends with white space |
| Text.ContainsIff | app/page.tsx:351 | `includes` holds exactly when the substring occurs at some position |
| Text.LastSegmentSpec | app/api/rag/route.ts:95-96 | `split(sep).pop()` is a separator-free suffix, preceded by the separator unless it is the whole string |
| Conversations.FindById | app/page.tsx:348 | `find` yields the first conversation with the id, and nothing exactly when no conversation has it |
| Conversations.UpdateWhere | app/page.tsx:377 | the map-with-spread update changes exactly the conversations with the given id and keeps length and order |
| Conversations.EscalateEffect | app/page.tsx:693 | Escalate sets exactly escalated, status, resolutionStatus and the manual reason on the selected conversation and touches no other |
| Conversations.MarkResolvedEffect | app/page.tsx:696 | Mark Resolved sets exactly resolutionStatus, status and escalated, keeps the escalation reason and touches no other conversation |
| Conversations.OperatorActionsIdempotent | app/page.tsx:693-696 | pressing either button twice equals pressing it once |
| Conversations.ResolveAfterEscalate | app/page.tsx:693-696 | resolving after escalating gives an active, unescalated conversation that still carries the manual reason |
| Conversations.PreviewSpec | app/page.tsx:450 | the preview is the text when it has at most 60 characters, else its first 60 characters plus `...` |
| Conversations.FilterConversationsSpec | app/page.tsx:349-353 | the filtered list holds exactly the conversations matching channel and case-folded search; with `all` and no search it is the whole list |
| Conversations.FilterIgnoresQueryCase | app/page.tsx:351 | upper-casing the search text does not change the result |
| Conversations.CountersOrdered | app/page.tsx:1407-1408 | escalated count <= open-ticket count <= number of conversations |
| Conversations.EscalateCounts | app/page.tsx:693 | escalating an existing conversation makes the escalated count at least one |
| Display.Initials | app/page.tsx:82-84 | at most two initials |
| Display.InitialsAreWordHeads | app/page.tsx:82-84 | the initials are the upper-cased first characters of the first two non-empty space-separated words, in order, and there are as many as such words up to two |
| Display.InitialsOfTwoWords | app/page.tsx:82-84 | "First Last" gives the two upper-cased first letters |
| Display.InitialsSkipEmptyWords | app/page.tsx:82-84 | a doubled space adds no initial |
| Display.ToInt32 | app/page.tsx:94 | the result is the 32-bit signed value congruent to the input modulo 2^32 |
| Display.AvatarIndex | app/page.tsx:96 | the colour index is within the seven colours |
| Display.AvatarColor | app/page.tsx:87-97 | the loop's hash equals the specified hash of the name, and the colour is the palette entry at its absolute value modulo 7 |
| Display.AvatarHashSingle | app/page.tsx:93-95 | a one-character name hashes to its character code |
| Agent.ReplyTextIsFirstTruthy | app/page.tsx:425-426 | the reply text is the first truthy of customer_response, answer, result.summary and message, else the fallback |
| Agent.ReplyTextNonEmpty | app/page.tsx:426 | the reply text is never empty |
| Agent.ReplyTextPrecedence | app/page.tsx:426 | a nested customer_response beats a top-level message; a lone message is used; with none the fallback is |
| Agent.DataShadowsResult | app/page.tsx:425-426 | a truthy `result.data`, even `{}`, replaces `result` as the source of every field; only `result.summary`, read separately, still reaches the reply |
| Agent.Normalize | app/page.tsx:425-432 | the normalized reply's text is non-empty |
| Agent.EscalatedPresenceAware | app/page.tsx:430 | explicit `false` de-escalates, explicit `true` escalates, an absent value keeps the snapshot's |
| Agent.EmptyStringFallsThrough | app/page.tsx:427-432 | each string classification field is the payload value when it is a non-empty string and the snapshot value otherwise, independently of the other fields; an empty string acts as a missing key |
| Agent.NoClassificationKeepsSnapshot | app/page.tsx:427-432 | a payload without classification keeps all of the snapshot's |
| Agent.NormalizeStable | app/page.tsx:427-432 | writing a reply's classification into the conversation and normalizing the same payload again gives the same classification |
| Agent.LiveChatReply | app/page.tsx:1234-1253 | the widget always appends a non-empty text |
| Agent.LiveChatAgreesWithConsole | app/page.tsx:1234-1237 | widget and console pick the same reply text whenever the payload supplies one |
| Agent.LiveChatFailureTexts | app/page.tsx:1238-1240 | a failed call shows the trouble text exactly when it carries an error, else the apology |
| Activity.ClassifyFrame | app/page.tsx:395-409 | an unparseable frame adds no entry |
| Activity.ClassifyFrameSpec | app/page.tsx:397-406 | a parsed frame is kept exactly when its chosen text (message, else text, else serialized) is a string or its type is `thinking`; a kept string text is classified under the type, defaulting to `info`; a non-string one makes a thinking entry |
| Activity.AgentNamePrecedence | app/page.tsx:400 | the agent is agent_name, else agentName, else empty |
| Activity.ErrorOnlyByType | app/page.tsx:405 | an entry is an error only when its type is `error` |
| Activity.ThinkingTextWins | app/page.tsx:402 | text containing "thinking" makes a thinking entry whatever the type |
| Activity.InfoIff | app/page.tsx:401-405 | an entry is info exactly when no type and no substring test matched |
| Activity.KindIgnoresCase | app/page.tsx:402-404 | the substring tests ignore ASCII case |
| Reconciler.CanSendIff | app/page.tsx:368 | a send goes ahead exactly when the input has a non-space character, the selected conversation exists and nothing is loading |
| Reconciler.AppendCustomerSpec | app/page.tsx:370-377 | beginning a send appends exactly the customer message to the selected conversation only and makes it the last message |
| Reconciler.SuccessEffect | app/page.tsx:434-457 | on success one classified agent message is appended; the classification is written; status becomes escalated when the reply escalates and active otherwise; the preview is shortened; every other field, such as the unread count and timestamp, stays |
| Reconciler.FailurePreservesClassification | app/page.tsx:460-467 | a failed result appends one unclassified apology and changes nothing else |
| Reconciler.ThrownChangesNoConversation | app/page.tsx:470-471 | a thrown call changes no conversation and logs one network error |
| Reconciler.EventsEndWithOutcome | app/page.tsx:422-471 | the log after the call ends with a completion exactly on success and with an error otherwise |
| Reconciler.ReplyEscalation | app/page.tsx:430-456 | `escalated: false` makes an escalated conversation active; an absent key keeps it escalated |
| Reconciler.SnapshotOverridesConcurrentEscalate | app/page.tsx:427-457 | the fallbacks come from the snapshot taken at send start, so a reply without `escalated` undoes an Escalate pressed during the call |
| Reconciler.CustomerPrecedesReply | app/page.tsx:377-467 | the selected conversation gains the customer message and then at most one agent message (none on a throw); no other conversation changes |
| Reconciler.Console.constructor | app/page.tsx:1383-1388 | the page starts with no input, not loading, no active agent, an empty log and no stream |
| Reconciler.Console.BeginSend | app/page.tsx:368-386 | a rejected send changes nothing; otherwise the customer message is appended, the input is cleared, loading is set, the coordinator is active and the log is restarted with two entries |
| Reconciler.Console.OpenStream | app/page.tsx:389-393 | the stream is opened only when the client has a key |
| Reconciler.Console.OnStreamEvent | app/page.tsx:395-410 | a frame is appended, as classified, only while the stream is open and the classifier keeps it |
| Reconciler.Console.StartCall | app/page.tsx:419 | the query entry is logged before the call |
| Reconciler.Console.CompleteSend | app/page.tsx:422-471 | the store and the log become the reconciliation of the outcome |
| Reconciler.Console.Finalize | app/page.tsx:472-479 | loading is cleared, no agent is active and the stream is closed |
| Reconciler.Console.RunCall | app/page.tsx:388-479 | after the optimistic update: the outcome is reconciled, the query and outcome entries are logged and the state is finalized |
| Reconciler.Console.HandleSendMessage | app/page.tsx:367-480 | a send either changes nothing or leaves the lifecycle's store, exactly this send's log entries, and the finalized flags |
| Reconciler.Console.Escalate | app/page.tsx:693 | the Escalate button applies to the selected conversation regardless of loading |
| Reconciler.Console.MarkResolved | app/page.tsx:696 | the Mark Resolved button applies to the selected conversation regardless of loading |
| RagRoute.GetValidationOrder | app/api/rag/route.ts:18-36 | GET rejects a missing id with 400 before checking the key (500) |
| RagRoute.GetDegradesToEmpty | app/api/rag/route.ts:47-124 | a network error, a 404, an unparseable 2xx body or a status >= 500 answer success with an empty list |
| RagRoute.GetPassesStatusThrough | app/api/rag/route.ts:126-137 | any other failing status is passed through as a failure |
| RagRoute.PathListSpec | app/api/rag/route.ts:83-91 | the path list is the array body, else the first array among documents, data, files, else empty |
| RagRoute.ListingOnePerEntry | app/api/rag/route.ts:93-111 | one active document per path entry, in order, named from the entry and typed from its name, under the requested id |
| RagRoute.FileNameSpec | app/api/rag/route.ts:94-95 | the file name is the text after the last '/' (a '/'-free suffix of the path, preceded by '/' unless it is the whole path), or the whole path when the path ends with '/' |
| RagRoute.FileTypeSpec | app/api/rag/route.ts:96-97 | the type is pdf, docx or txt exactly when the lower-cased text after the last '.' is that word, else unknown; a name without a dot is its own extension |
| RagRoute.FileTypeFor | app/api/rag/route.ts:6-10 | exactly the three listed MIME types map to a type: PDF to `pdf`, Word to `docx`, plain text to `txt` |
| RagRoute.InheritedKeyPassesGuard | app/api/rag/route.ts:177-178 | as written, the object lookup lets "constructor" and "__proto__" past the guard although they are not in the allow-list |
| RagRoute.CorrectedGuard | app/api/rag/route.ts:177-186 | the corrected guard admits exactly the three MIME types and agrees with the written one on every key that is not inherited |
| RagRoute.DocumentCount | app/api/rag/route.ts:227 | `document_count || chunks || 1`: never zero, the first non-zero count |
| RagRoute.PostValidationOrder | app/api/rag/route.ts:153-186 | POST checks the key, then ragId and file, then the MIME type, all before the upstream |
| RagRoute.PostFailures | app/api/rag/route.ts:196-238 | thrown steps give 500 with the message; a refused training passes its status through |
| RagRoute.PostSuccess | app/api/rag/route.ts:220-230 | a successful upload reports the file's name, the type its MIME type maps to, a non-zero count and the id |
| RagRoute.DeleteSpec | app/api/rag/route.ts:245-296 | DELETE checks the key, then id and array; success reports as many deletions as names; failure passes the status through |
| KnowledgeClient.LoadDocumentsSpec | app/page.tsx:754-781 | the list is replaced and the error banner cleared exactly when an id is configured and the reply has success and an array; on every failure the earlier documents stay and a non-empty banner is set |
| KnowledgeClient.FailedReloadKeepsList | app/page.tsx:754-781 | a failed reload after a successful one leaves the loaded list on screen under the error banner |
| KnowledgeClient.ScreenShowsRouteListing | app/page.tsx:762-765 | every 200 listing from the route, including the degraded empty ones, replaces the screen's list and clears the banner |
| KnowledgeClient.ScreenReportsMissingKey | app/page.tsx:770-771 | a route without a key makes the screen show the server-configuration banner, not the id one, and keep its documents |
| KnowledgeClient.ScreenReportsMissingId | app/page.tsx:768-769 | the route refuses a missing id with 400 and "ragId is required", and the screen shows that text as a connection-issue banner, keeping its documents |
| KnowledgeClient.ScreenShowsStatusFailure | app/page.tsx:764-775 | any other route refusal is shown as the route's own text in the banner, keeping the documents |
| KnowledgeClient.RemoveDeletedSpec | app/page.tsx:821-822 | after a successful delete no document of that name remains and all others stay; otherwise the list is unchanged |
| KnowledgeClient.DeleteRemovesFromList | app/page.tsx:811-822 | deleting one name through an accepting route counts one deletion and filters it from the list |
| KnowledgeClient.TestQueryShowsText | app/page.tsx:831-849 | a blank query does nothing; any other leaves a non-empty text |
| KnowledgeClient.TestQueryReportsAnswer | app/page.tsx:838-843 | a successful query starts with `Answer: ` and the first truthy of answer, summary and message, never empty |
| KnowledgeClient.AnswerIgnoresCustomerResponse | app/page.tsx:840 | unlike the console reply, the answer never reads customer_response |
| Settings.DefaultsValid | app/page.tsx:976 | the initial keywords are clean and distinct |
| Settings.NormalizedClean | app/page.tsx:986-987 | a non-blank input becomes a trimmed keyword without upper-case letters |
| Settings.AddKeywordSpec | app/page.tsx:985-990 | adding keeps the list clean and distinct, and appends the normalized keyword and clears the box exactly when it is non-blank and new |
| Settings.RemoveKeywordSpec | app/page.tsx:992-994 | removing keeps the list valid, removes every occurrence and keeps every other keyword |
| Settings.RemoveUndoesAdd | app/page.tsx:985-994 | removing a keyword just added restores the list |

## Left out

- I/O is replaced by input datatypes. This covers `callAIAgent`, `fetch`, WebSocket connection and close, `FormData`, `request.json()`, `response.json()`/`text()`, environment variables and upstream URLs.
- JSON parsing and `JSON.stringify` are left out. A stream frame arrives already decoded, and its serialized form is a parameter.
- Ids, session ids, `Date.now`, `Math.random` and `toLocaleTimeString` are parameters. This includes the activity-entry ids.
- Reconciler.StartEvents and Reconciler.EventsAfter: one time-of-day string stamps all the lifecycle entries of a send. The source reads the clock for each entry, so the entries of one send may carry different seconds.
- Case mapping covers ASCII only; the source uses full Unicode `toLowerCase`/`toUpperCase`.
- Strings are sequences of code points, not UTF-16 code units. `slice(0, 60)`, `n[0]` and `charCodeAt` differ for characters outside the Basic Multilingual Plane.
- React state batching and interleavings are out of the model.
  - The lifecycle is sequential: `Console.OnStreamEvent` may be called between the steps.
  - Escalate and Mark Resolved may be called while a send is in flight.
  - Concurrent sends are impossible because the loading flag is global.
- Payload values of unexpected types are not modelled: a number in `customer_response`, for instance. `confidence` and `sources` are pre-rendered strings.
- Activity.ClassifyFrameSpec: a non-string stream text is carried by a given rendering, not as the value itself. The model does not say how the panel displays such a value.
- Reconciler.Console.HandleSendMessage: states the lifecycle with no stream frame arriving during the call. `Console.OnStreamEvent` covers frames separately.
- Display.AvatarHash: uses exact integers. The source's double-precision sum is exact only while the hash stays below 2^53, which holds for names of realistic length.
- RagRoute.Get: the outer `catch` of GET (500 with the error's message) is not modelled, because no modelled step of GET throws.
- RagRoute.Post: uses the corrected MIME lookup `FileTypeFor`; the written lookup is kept as `LookupAsWritten` (see Findings).
- The route's `timestamp` fields and the fixed success `message` texts of POST and DELETE are not modelled. GET's two service notices are. The multipart form sent upstream (parser and chunk settings) and the upstream URLs are not modelled either.
- `handleUpload` on the knowledge-base screen is not modelled. It only checks `success`, then refetches or shows the route's error; the upload decisions themselves are `RagRoute.Post`.
- The mock conversations, the settings screen's other fields and all rendering are not modelled.

## Findings

| source | as written | input that shows it | evidently intended | confidence | as-written member | corrected member |
|---|---|---|---|---|---|---|
| app/api/rag/route.ts:177-178 | `FILE_TYPE_MAP[file.type]` is a plain-object lookup, so a MIME type naming an inherited `Object.prototype` member yields a truthy inherited value (a function, or the prototype object itself) and passes the `!fileType` guard | an upload whose `file.type` is `"constructor"` or `"__proto__"`; a `File` lower-cases its type, so mixed-case keys such as `toString` do not arrive | only the three listed MIME types are accepted; every other type gets the 400 "Unsupported file type" answer | not executed; high that the guard passes, since this is ordinary property lookup | RagRoute.InheritedKeyPassesGuard | RagRoute.CorrectedGuard |
