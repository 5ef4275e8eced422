/** The knowledge-base screen's side of the route: how it turns a listing
    reply into documents or a message, drops a deleted document, and renders
    a test query's answer. */
module KnowledgeClient {
  import opened Wrappers
  import opened Text
  import opened Lists
  import opened RagRoute
  import opened Agent

  // ---------------------------------------------------------------------------
  // Loading the document list
  // ---------------------------------------------------------------------------

  /** The decoded reply as the screen reads it: `success`, `documents` when it
      is an array, and `error`. */
  datatype DocsReply = DocsReply(success: bool, documents: Option<seq<Document>>, error: Option<string>)

  /** The route's response as JSON seen from the page. */
  function Decode(r: Response): DocsReply {
    match r.body
    case ListBody(docs, _, _) => DocsReply(true, Some(docs), None)
    case ErrorBody(e, _) => DocsReply(false, None, Some(e))
    case _ => DocsReply(true, None, None)
  }

  /** The request and the body's decoding either produce a reply or throw. */
  datatype FetchOutcome = Fetched(reply: DocsReply) | FetchThrew

  /** The screen's state for the list: the documents it draws and the error
      banner shown above them, `None` when no banner is shown. */
  datatype DocsScreen = DocsScreen(documents: seq<Document>, error: Option<string>)

  const NOT_CONFIGURED := "Knowledge base not configured. RAG ID is missing."
  const LOAD_FAILED := "Failed to load documents"
  const CONNECTION_ISSUE := "Knowledge base connection issue. The RAG ID may not be configured correctly."
  const KEY_ISSUE := "Server configuration issue: LYZR_API_KEY environment variable is not set on the server."
  const LOAD_NETWORK := "Network error loading documents"

  /** The message shown for a reply without a document list. */
  function FetchErrorText(error: Option<string>): string {
    var errMsg := Or(error, LOAD_FAILED);
    if Contains(errMsg, "ragId is required") then CONNECTION_ISSUE
    else if Contains(errMsg, "LYZR_API_KEY not configured") then KEY_ISSUE
    else errMsg
  }

  /** Loading documents for the configured knowledge-base id. With no id the
      request is not made. A reply with a list replaces the documents and
      clears the banner; every failure sets the banner and leaves the
      documents that were already on screen. */
  function LoadDocuments(before: DocsScreen, ragId: string, outcome: FetchOutcome): DocsScreen {
    if ragId == "" then before.(error := Some(NOT_CONFIGURED))
    else match outcome
      case FetchThrew => before.(error := Some(LOAD_NETWORK))
      case Fetched(reply) =>
        if reply.success && reply.documents.Some? then DocsScreen(reply.documents.value, None)
        else before.(error := Some(FetchErrorText(reply.error)))
  }

  /** The list is replaced, and the banner cleared, exactly when an id is
      configured and the reply says success with an array; in every other
      case the earlier documents stay and a non-empty banner is shown. */
  lemma LoadDocumentsSpec(before: DocsScreen, ragId: string, outcome: FetchOutcome)
    ensures var after := LoadDocuments(before, ragId, outcome);
      after.error.None? <==>
        ragId != "" && outcome.Fetched? && outcome.reply.success && outcome.reply.documents.Some?
    ensures var after := LoadDocuments(before, ragId, outcome);
      after.error.None? ==> after.documents == outcome.reply.documents.value
    ensures var after := LoadDocuments(before, ragId, outcome);
      after.error.Some? ==> after.documents == before.documents && after.error.value != ""
  {
  }

  /** A failed reload after a successful one keeps the loaded list on screen
      under the banner. */
  lemma FailedReloadKeepsList(before: DocsScreen, ragId: string, docs: seq<Document>, failure: FetchOutcome)
    requires ragId != ""
    requires !(failure.Fetched? && failure.reply.success && failure.reply.documents.Some?)
    ensures var loaded := LoadDocuments(before, ragId, Fetched(DocsReply(true, Some(docs), None)));
      && loaded == DocsScreen(docs, None)
      && LoadDocuments(loaded, ragId, failure).documents == docs
      && LoadDocuments(loaded, ragId, failure).error.Some?
  {
  }

  /** `includes` is false when some character of `sub` never occurs in `s`. */
  lemma NotContainsByChar(s: string, sub: string, k: nat)
    requires k < |sub| && sub[k] !in s
    ensures !Contains(s, sub)
  {
    ContainsIff(s, sub);
    forall i
      ensures !OccursAt(s, sub, i)
    {
      if 0 <= i <= |s| - |sub| {
        assert s[i..i + |sub|][k] == s[i + k];
        assert s[i + k] in s;
      }
    }
  }

  /** Whatever the upstream does, a configured route with a key gives the
      screen a document list: the route's own list, or an empty one when the
      upstream failed softly. */
  lemma ScreenShowsRouteListing(before: DocsScreen, id: string, apiKey: string, up: ListUpstream)
    requires id != "" && apiKey != ""
    requires Get(Some(id), apiKey, up).status == 200
    ensures Get(Some(id), apiKey, up).body.ListBody?
    ensures LoadDocuments(before, id, Fetched(Decode(Get(Some(id), apiKey, up))))
         == DocsScreen(Get(Some(id), apiKey, up).body.documents, None)
  {
    var r := Get(Some(id), apiKey, up);
    match up
    case ListNetworkError =>
      assert r == EmptyList(id, Some(UNAVAILABLE));
    case ListReply(status, json, text) =>
      if status == 404 {
        assert r == EmptyList(id, None);
      } else if IsOk(status) {
        assert r.body.ListBody?;
      } else if status >= 500 {
        assert r == EmptyList(id, Some(DEGRADED));
      } else {
        assert false;
      }
    ListBodyDecodes(r, before, id);
  }

  /** A list body reaches the screen as its documents, clearing the banner. */
  lemma ListBodyDecodes(r: Response, before: DocsScreen, id: string)
    requires id != "" && r.body.ListBody?
    ensures LoadDocuments(before, id, Fetched(Decode(r))) == DocsScreen(r.body.documents, None)
  {
  }

  /** A route without an API key makes the screen report the server's
      configuration. */
  lemma ScreenReportsMissingKey(before: DocsScreen, id: string, up: ListUpstream)
    requires id != ""
    ensures LoadDocuments(before, id, Fetched(Decode(Get(Some(id), "", up)))) == before.(error := Some(KEY_ISSUE))
  {
    MissingKeyText();
  }

  /** The route's missing-key text names the key and not the id. */
  lemma MissingKeyText()
    ensures FetchErrorText(Some(KEY_MISSING)) == KEY_ISSUE
  {
    assert "LYZR_API_KEY not configured" <= KEY_MISSING;
    NotContainsByChar(KEY_MISSING, "ragId is required", 11);
    FetchErrorTextSpec(KEY_MISSING);
  }

  /** Which message an error text leads to. */
  lemma FetchErrorTextSpec(e: string)
    requires e != ""
    ensures Contains(e, "ragId is required") ==> FetchErrorText(Some(e)) == CONNECTION_ISSUE
    ensures !Contains(e, "ragId is required") && Contains(e, "LYZR_API_KEY not configured") ==>
      FetchErrorText(Some(e)) == KEY_ISSUE
    ensures !Contains(e, "ragId is required") && !Contains(e, "LYZR_API_KEY not configured") ==>
      FetchErrorText(Some(e)) == e
  {
  }

  /** The route refuses a missing or empty id with its "ragId is required"
      text, whatever the key and the upstream, and for any configured id the
      screen reports that text as a connection issue. */
  lemma ScreenReportsMissingId(before: DocsScreen, id: string, ragId: Option<string>, apiKey: string, up: ListUpstream)
    requires id != "" && !Truthy(ragId)
    ensures Get(ragId, apiKey, up) == Fail(400, RAG_ID_MISSING, None)
    ensures FetchErrorText(Decode(Get(ragId, apiKey, up)).error) == CONNECTION_ISSUE
    ensures LoadDocuments(before, id, Fetched(Decode(Get(ragId, apiKey, up)))) == before.(error := Some(CONNECTION_ISSUE))
  {
    assert "ragId is required" <= RAG_ID_MISSING;
  }

  /** Any other refusal reaches the screen as the route's own error text. */
  lemma ScreenShowsStatusFailure(before: DocsScreen, id: string, apiKey: string, status: nat, json: Option<Listing>, text: Option<string>)
    requires id != "" && apiKey != ""
    requires !IsOk(status) && status != 404 && status < 500
    ensures LoadDocuments(before, id, Fetched(Decode(Get(Some(id), apiKey, ListReply(status, json, text)))))
         == before.(error := Some("Failed to get documents: " + NatToString(status)))
  {
    var e := "Failed to get documents: " + NatToString(status);
    assert Get(Some(id), apiKey, ListReply(status, json, text)) == Fail(status, e, Some(if text.Some? then text.value else UNREADABLE));
    StatusFailureText(status);
  }

  /** The route's status text mentions neither the id nor the key. */
  lemma StatusFailureText(status: nat)
    ensures FetchErrorText(Some("Failed to get documents: " + NatToString(status)))
         == "Failed to get documents: " + NatToString(status)
  {
    var e := "Failed to get documents: " + NatToString(status);
    StatusTextLetters(status);
    NotContainsByChar(e, "ragId is required", 11);
    NotContainsByChar(e, "LYZR_API_KEY not configured", 0);
    FetchErrorTextSpec(e);
  }

  /** The status text holds no 'q' and no 'L'. */
  lemma StatusTextLetters(status: nat)
    ensures var e := "Failed to get documents: " + NatToString(status);
      'q' !in e && 'L' !in e
  {
    var prefix := "Failed to get documents: ";
    var digits := NatToString(status);
    var e := prefix + digits;
    forall i | 0 <= i < |e| ensures e[i] != 'q' && e[i] != 'L' {
      if i < |prefix| {
        assert e[i] == prefix[i];
      } else {
        assert e[i] == digits[i - |prefix|];
      }
    }
  }

  // ---------------------------------------------------------------------------
  // Deleting a document
  // ---------------------------------------------------------------------------

  /** After a delete request: on success every document of that name leaves
      the list; otherwise the list stays. */
  function RemoveDeleted(docs: seq<Document>, fileName: string, success: bool): seq<Document> {
    if success then Filter(docs, (d: Document) => d.fileName != fileName) else docs
  }

  lemma RemoveDeletedSpec(docs: seq<Document>, fileName: string, success: bool)
    ensures !success ==> RemoveDeleted(docs, fileName, success) == docs
    ensures success ==> forall i :: 0 <= i < |RemoveDeleted(docs, fileName, success)| ==>
      RemoveDeleted(docs, fileName, success)[i].fileName != fileName
    ensures success ==> forall i :: 0 <= i < |docs| && docs[i].fileName != fileName ==>
      docs[i] in RemoveDeleted(docs, fileName, success)
    ensures success && (forall i :: 0 <= i < |docs| ==> docs[i].fileName != fileName) ==>
      RemoveDeleted(docs, fileName, success) == docs
  {
    if success && (forall i :: 0 <= i < |docs| ==> docs[i].fileName != fileName) {
      FilterKeepsAll(docs, (d: Document) => d.fileName != fileName);
    }
  }

  /** The screen sends one name; a route that reaches an accepting upstream
      acknowledges one deletion, and the document leaves the list. */
  lemma DeleteRemovesFromList(docs: seq<Document>, fileName: string, id: string, apiKey: string, status: nat, text: Result<string, Exn>)
    requires id != "" && apiKey != "" && IsOk(status)
    ensures var r := Delete(apiKey, DeleteJson(Some(id), Some([fileName])), DeleteReply(status, text));
      && r.body == DeleteBody(1, id)
      && RemoveDeleted(docs, fileName, Success(r)) == Filter(docs, (d: Document) => d.fileName != fileName)
  {
  }

  // ---------------------------------------------------------------------------
  // Test query
  // ---------------------------------------------------------------------------

  const NO_ANSWER := "No answer found"
  const NOT_AVAILABLE := "N/A"
  const NO_RESULT := "Failed to get answer"
  const QUERY_NETWORK := "Network error"

  /** `data.answer || result.summary || message || 'No answer found'`; unlike
      the console reply, `customer_response` is not consulted. */
  function AnswerText(resp: AgentResponse): string {
    Or(ResData(resp).answer, Or(Summary(resp), Or(resp.message, NO_ANSWER)))
  }

  function AnswerReport(resp: AgentResponse): string {
    var d := ResData(resp);
    "Answer: " + AnswerText(resp) + "\n\nConfidence: " + Or(d.confidence, NOT_AVAILABLE)
      + "\nSources: " + Or(d.sources, NOT_AVAILABLE)
  }

  /** The test panel's text after a query; `None` when the trimmed query is
      empty and nothing is sent. */
  function TestQueryResult(query: string, outcome: CallOutcome): Option<string> {
    if Trim(query) == "" then None
    else match outcome
      case Thrown => Some(QUERY_NETWORK)
      case Returned(r) =>
        if r.success && r.response.Some? && r.response.value.result.Some? then Some(AnswerReport(r.response.value))
        else Some(Or(r.error, NO_RESULT))
  }

  /** A blank query does nothing; any other query leaves a non-empty text. */
  lemma TestQueryShowsText(query: string, outcome: CallOutcome)
    ensures TestQueryResult(query, outcome).None? <==> Trim(query) == ""
    ensures TestQueryResult(query, outcome).Some? ==> TestQueryResult(query, outcome).value != ""
  {
  }

  /** A successful query reports its answer, which is the first truthy of
      `answer`, the summary and the message, and is never empty. */
  lemma TestQueryReportsAnswer(query: string, r: CallResult)
    requires Trim(query) != "" && r.success && r.response.Some? && r.response.value.result.Some?
    ensures var resp := r.response.value;
      && TestQueryResult(query, Returned(r)) == Some(AnswerReport(resp))
      && AnswerText(resp) == FirstTruthy([ResData(resp).answer, Summary(resp), resp.message], NO_ANSWER)
      && AnswerText(resp) != ""
      && AnswerReport(resp)[..8 + |AnswerText(resp)|] == "Answer: " + AnswerText(resp)
  {
    var resp := r.response.value;
    var d := ResData(resp);
    var cands := [d.answer, Summary(resp), resp.message];
    assert cands[1..][1..][1..] == [];
    assert FirstTruthy(cands[1..][1..], NO_ANSWER) == Or(resp.message, NO_ANSWER);
    assert FirstTruthy(cands[1..], NO_ANSWER) == Or(Summary(resp), Or(resp.message, NO_ANSWER));
  }

  /** The answer does not depend on `customer_response`. */
  lemma AnswerIgnoresCustomerResponse(resp: AgentResponse, other: Option<string>)
    requires resp.result.Some? && resp.result.value.data.Some?
    ensures var node := resp.result.value;
      var changed := resp.(result := Some(node.(data := Some(node.data.value.(customerResponse := other)))));
      AnswerText(changed) == AnswerText(resp)
  {
  }
}
