/** The agent call's result as the console sees it, and the response
    normalizer: which payload field supplies the reply text and each
    classification field, with the conversation's snapshot as fallback. */
module Agent {
  import opened Wrappers
  import opened Text
  import opened Conversations

  /** The recognised keys of a `result` or `result.data` object, each a string
      (a boolean for `escalated`) or `None` when missing or `null`; values of
      other types are not modelled. `Some("")` is present but falsy, and
      `escalated` is `None` only when absent or `null`, as `??` requires. */
  datatype Fields = Fields(
    customerResponse: Option<string>,
    answer: Option<string>,
    channel: Option<string>,
    topicCategory: Option<string>,
    urgencyLevel: Option<string>,
    escalated: Option<bool>,
    escalationReason: Option<string>,
    resolutionStatus: Option<string>,
    confidence: Option<string>,
    sources: Option<string>)

  const NO_FIELDS := Fields(None, None, None, None, None, None, None, None, None, None)

  /** `response.result`: its own keys, its `summary`, and `data` when `data` is
      truthy. A truthy `data` that is not an object reads as `Some(NO_FIELDS)`. */
  datatype ResultNode = ResultNode(own: Fields, summary: Option<string>, data: Option<Fields>)

  /** `result.response`: `result` when truthy, and the top-level `message`. */
  datatype AgentResponse = AgentResponse(result: Option<ResultNode>, message: Option<string>)

  /** What the agent client resolves to. `response` is `None` when falsy. */
  datatype CallResult = CallResult(success: bool, response: Option<AgentResponse>, error: Option<string>)

  /** The awaited call either resolves to a result or throws. */
  datatype CallOutcome = Returned(result: CallResult) | Thrown

  const CONSOLE_FALLBACK := "Thank you for your message. I am looking into this for you."
  const LIVE_CHAT_APOLOGY := "I apologize, but I encountered an issue. Please try again."
  const LIVE_CHAT_TROUBLE := "Sorry, I am having trouble connecting right now. Please try again in a moment."
  const LIVE_CHAT_NETWORK := "Network error occurred. Please check your connection and try again."

  /** `resData = response.result?.data || response.result || {}`. */
  function ResData(resp: AgentResponse): Fields {
    match resp.result
    case None => NO_FIELDS
    case Some(node) => if node.data.Some? then node.data.value else node.own
  }

  function Summary(resp: AgentResponse): Option<string> {
    if resp.result.Some? then resp.result.value.summary else None
  }

  /** `customer_response || answer || result.summary || message || fallback`. */
  function ReplyText(resp: AgentResponse, fallback: string): string {
    var d := ResData(resp);
    Or(d.customerResponse, Or(d.answer, Or(Summary(resp), Or(resp.message, fallback))))
  }

  /** The reply-text chain is the first truthy of the four candidates, in order. */
  lemma ReplyTextIsFirstTruthy(resp: AgentResponse, fallback: string)
    ensures ReplyText(resp, fallback)
         == FirstTruthy([ResData(resp).customerResponse, ResData(resp).answer, Summary(resp), resp.message], fallback)
  {
    var d := ResData(resp);
    var cands := [d.customerResponse, d.answer, Summary(resp), resp.message];
    var c1, c2, c3 := cands[1..], cands[1..][1..], cands[1..][1..][1..];
    assert c3[1..] == [];
    assert FirstTruthy(c3, fallback) == Or(resp.message, fallback);
    assert FirstTruthy(c2, fallback) == Or(Summary(resp), FirstTruthy(c3, fallback));
    assert FirstTruthy(c1, fallback) == Or(d.answer, FirstTruthy(c2, fallback));
    assert FirstTruthy(cands, fallback) == Or(d.customerResponse, FirstTruthy(c1, fallback));
  }

  /** A reply text is never empty when the fallback is not. */
  lemma ReplyTextNonEmpty(resp: AgentResponse, fallback: string)
    requires fallback != ""
    ensures ReplyText(resp, fallback) != ""
  {
    ReplyTextIsFirstTruthy(resp, fallback);
    FirstTruthyNonEmpty([ResData(resp).customerResponse, ResData(resp).answer, Summary(resp), resp.message], fallback);
  }

  /** Precedence between the nested and the top-level text: a nested
      `customer_response` beats a top-level `message`; a lone top-level
      `message` is used; with neither (nor `answer`/`summary`) the fallback is. */
  lemma ReplyTextPrecedence(resp: AgentResponse, fallback: string)
    ensures Truthy(ResData(resp).customerResponse) ==> ReplyText(resp, fallback) == ResData(resp).customerResponse.value
    ensures (!Truthy(ResData(resp).customerResponse) && !Truthy(ResData(resp).answer) && !Truthy(Summary(resp))
             && Truthy(resp.message)) ==> ReplyText(resp, fallback) == resp.message.value
    ensures (!Truthy(ResData(resp).customerResponse) && !Truthy(ResData(resp).answer) && !Truthy(Summary(resp))
             && !Truthy(resp.message)) ==> ReplyText(resp, fallback) == fallback
  {
  }

  /** An empty `data` object still shadows `result`: with `data` present no
      field of `resData` comes from `result`'s own keys, and the reply text
      falls through to `result.summary`, which is read separately. */
  lemma DataShadowsResult(own: Fields, summary: Option<string>, message: Option<string>, fallback: string)
    ensures ResData(AgentResponse(Some(ResultNode(own, summary, Some(NO_FIELDS))), message)) == NO_FIELDS
    ensures ReplyText(AgentResponse(Some(ResultNode(own, summary, Some(NO_FIELDS))), message), fallback)
         == Or(summary, Or(message, fallback))
  {
  }

  // ---------------------------------------------------------------------------
  // Classification
  // ---------------------------------------------------------------------------

  /** A classification field: the payload's value when truthy, else the snapshot's. */
  function Classified(o: Option<string>, snapshot: string): string {
    Or(o, snapshot)
  }

  /** `escalated ?? snapshot`: present booleans win, even `false`. */
  function Coalesce(o: Option<bool>, snapshot: bool): bool {
    if o.Some? then o.value else snapshot
  }

  /** The classification of a reply: each field from `resData`, else from the
      conversation as it was when the send began. */
  function NormalizeTags(d: Fields, snap: Conversation): Tags {
    Tags(
      Classified(d.channel, ChannelName(snap.channel)),
      Classified(d.topicCategory, snap.topicCategory),
      Classified(d.urgencyLevel, snap.urgencyLevel),
      Coalesce(d.escalated, snap.escalated),
      Classified(d.escalationReason, snap.escalationReason),
      Classified(d.resolutionStatus, snap.resolutionStatus))
  }

  /** The normalized reply: text and classification. */
  datatype Reply = Reply(text: string, tags: Tags)

  function Normalize(resp: AgentResponse, snap: Conversation): (r: Reply)
    ensures r.text != ""
  {
    ReplyTextNonEmpty(resp, CONSOLE_FALLBACK);
    Reply(ReplyText(resp, CONSOLE_FALLBACK), NormalizeTags(ResData(resp), snap))
  }

  /** `escalated` is presence-aware: an explicit `false` de-escalates, an
      absent field keeps the snapshot, and an explicit `true` escalates. */
  lemma EscalatedPresenceAware(d: Fields, snap: Conversation)
    ensures d.escalated == Some(false) ==> !NormalizeTags(d, snap).escalated
    ensures d.escalated == Some(true) ==> NormalizeTags(d, snap).escalated
    ensures d.escalated.None? ==> NormalizeTags(d, snap).escalated == snap.escalated
  {
  }

  /** The string fields use `||`, each on its own: a field is the payload's
      value when that is a non-empty string and the snapshot's otherwise,
      whatever the other fields hold; so an empty string falls through exactly
      like a missing key. */
  lemma EmptyStringFallsThrough(d: Fields, snap: Conversation)
    ensures NormalizeTags(d, snap).channel == (if Truthy(d.channel) then d.channel.value else ChannelName(snap.channel))
    ensures NormalizeTags(d, snap).topicCategory == (if Truthy(d.topicCategory) then d.topicCategory.value else snap.topicCategory)
    ensures NormalizeTags(d, snap).urgencyLevel == (if Truthy(d.urgencyLevel) then d.urgencyLevel.value else snap.urgencyLevel)
    ensures NormalizeTags(d, snap).escalationReason
         == (if Truthy(d.escalationReason) then d.escalationReason.value else snap.escalationReason)
    ensures NormalizeTags(d, snap).resolutionStatus
         == (if Truthy(d.resolutionStatus) then d.resolutionStatus.value else snap.resolutionStatus)
    ensures d.topicCategory == Some("") ==> NormalizeTags(d, snap) == NormalizeTags(d.(topicCategory := None), snap)
    ensures d.urgencyLevel == Some("") ==> NormalizeTags(d, snap) == NormalizeTags(d.(urgencyLevel := None), snap)
    ensures d.escalationReason == Some("") ==> NormalizeTags(d, snap) == NormalizeTags(d.(escalationReason := None), snap)
    ensures d.resolutionStatus == Some("") ==> NormalizeTags(d, snap) == NormalizeTags(d.(resolutionStatus := None), snap)
    ensures d.channel == Some("") ==> NormalizeTags(d, snap) == NormalizeTags(d.(channel := None), snap)
  {
  }

  /** The snapshot's own classification, as tags. */
  function SnapshotTags(snap: Conversation): Tags {
    Tags(ChannelName(snap.channel), snap.topicCategory, snap.urgencyLevel, snap.escalated,
         snap.escalationReason, snap.resolutionStatus)
  }

  /** A payload without classification keeps every field of the snapshot. */
  lemma NoClassificationKeepsSnapshot(snap: Conversation)
    ensures NormalizeTags(NO_FIELDS, snap) == SnapshotTags(snap)
  {
  }

  /** Writing a reply's classification into the conversation and normalizing
      the same payload again gives the same classification: applying a reply
      is stable. (The conversation's channel is never written, and the
      payload's channel is read again.) */
  lemma NormalizeStable(d: Fields, snap: Conversation)
    ensures var t := NormalizeTags(d, snap);
      NormalizeTags(d, snap.(topicCategory := t.topicCategory, urgencyLevel := t.urgencyLevel,
                             escalated := t.escalated, escalationReason := t.escalationReason,
                             resolutionStatus := t.resolutionStatus)) == t
  {
  }

  // ---------------------------------------------------------------------------
  // The live-chat widget's reply selection
  // ---------------------------------------------------------------------------

  /** The text the live-chat widget appends after a call: the same precedence
      with its own fallback on success, one of two fixed texts otherwise. */
  function LiveChatReply(outcome: CallOutcome): (text: string)
    ensures text != ""
  {
    match outcome
    case Thrown => LIVE_CHAT_NETWORK
    case Returned(r) =>
      if r.success && r.response.Some? then
        ReplyTextNonEmpty(r.response.value, LIVE_CHAT_APOLOGY);
        ReplyText(r.response.value, LIVE_CHAT_APOLOGY)
      else if Truthy(r.error) then LIVE_CHAT_TROUBLE
      else LIVE_CHAT_APOLOGY
  }

  /** The widget and the console choose the same text whenever the payload
      supplies one; they differ only in their fallbacks. */
  lemma LiveChatAgreesWithConsole(resp: AgentResponse, snap: Conversation, error: Option<string>)
    ensures var live := LiveChatReply(Returned(CallResult(true, Some(resp), error)));
      && (Normalize(resp, snap).text != CONSOLE_FALLBACK ==> live == Normalize(resp, snap).text)
      && (live != LIVE_CHAT_APOLOGY ==> live == Normalize(resp, snap).text)
  {
  }

  /** A failed call shows the trouble text only when it carries an error message. */
  lemma LiveChatFailureTexts(r: CallResult)
    requires !(r.success && r.response.Some?)
    ensures LiveChatReply(Returned(r)) == (if Truthy(r.error) then LIVE_CHAT_TROUBLE else LIVE_CHAT_APOLOGY)
  {
  }
}
