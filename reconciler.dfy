/** The console's send lifecycle: a customer message is appended, the agent is
    called, its reply (or a failure) is reconciled into the store, and the
    activity log, loading flag and active agent are reset at the end. The pure
    functions give each step's effect; the class `Console` holds the state the
    page keeps and performs the steps in place. */
module Reconciler {
  import opened Wrappers
  import opened Text
  import opened Conversations
  import opened Agent
  import opened Activity

  const COORDINATOR_ID := "698a277a79bc02d9d4f13ce1"
  const APOLOGY := "I apologize, but I encountered an issue processing your request. Please try again or contact support."

  /** An id and a display time, supplied by the caller in place of the clock. */
  datatype Stamp = Stamp(id: string, time: string)

  /** What the send captured when it began: the selected id, the conversation as
      it was then (the source of every fallback) and the trimmed text. */
  datatype SendContext = SendContext(convoId: string, snapshot: Conversation, text: string)

  // ---------------------------------------------------------------------------
  // Beginning a send
  // ---------------------------------------------------------------------------

  /** The guard of the send handler. */
  predicate CanSend(input: string, cs: seq<Conversation>, selectedId: string, loading: bool) {
    Trim(input) != "" && FindById(cs, selectedId).Some? && !loading
  }

  /** A send goes ahead exactly when the input holds a non-blank character, the
      selected conversation exists and no send is in flight. */
  lemma CanSendIff(input: string, cs: seq<Conversation>, selectedId: string, loading: bool)
    ensures CanSend(input, cs, selectedId, loading) <==>
      && (exists k :: 0 <= k < |input| && !IsSpace(input[k]))
      && (exists i :: 0 <= i < |cs| && cs[i].id == selectedId)
      && !loading
  {
    TrimEmptyIff(input);
  }

  function ContextOf(input: string, cs: seq<Conversation>, selectedId: string): SendContext
    requires FindById(cs, selectedId).Some?
  {
    SendContext(selectedId, FindById(cs, selectedId).value, Trim(input))
  }

  function CustomerMessage(text: string, stamp: Stamp): Message {
    Message(stamp.id, Customer, text, stamp.time, None)
  }

  /** Appends the customer's message to the selected conversation and makes it
      the last message. */
  function AppendCustomer(cs: seq<Conversation>, id: string, m: Message): seq<Conversation> {
    UpdateWhere(cs, id, (c: Conversation) => c.(messages := c.messages + [m], lastMessage := m.text))
  }

  /** The two entries a fresh activity log starts with. */
  function StartEvents(time: string): seq<ActivityEvent> {
    [ActivityEvent(Info, "Starting customer service request...", time, "System"),
     ActivityEvent(Processing, "Routing to Customer Service Coordinator", time, "Coordinator")]
  }

  /** The entry logged just before the agent is called. */
  function QueryEvent(time: string): ActivityEvent {
    ActivityEvent(Processing, "Querying knowledge base...", time, "Knowledge Retrieval Agent")
  }

  /** Beginning a send adds exactly one message, the trimmed text from the
      customer, to the selected conversation only, and makes it the preview. */
  lemma AppendCustomerSpec(cs: seq<Conversation>, id: string, m: Message, i: nat)
    requires i < |cs|
    ensures |AppendCustomer(cs, id, m)| == |cs|
    ensures cs[i].id != id ==> AppendCustomer(cs, id, m)[i] == cs[i]
    ensures cs[i].id == id ==>
      var c := AppendCustomer(cs, id, m)[i];
      c.messages == cs[i].messages + [m] && c.lastMessage == m.text
      && c.(messages := cs[i].messages, lastMessage := cs[i].lastMessage) == cs[i]
  {
  }

  // ---------------------------------------------------------------------------
  // Completing a send
  // ---------------------------------------------------------------------------

  /** The call produced a usable response (`result.success && result.response`). */
  predicate Succeeded(outcome: CallOutcome) {
    outcome.Returned? && outcome.result.success && outcome.result.response.Some?
  }

  function AgentMessage(reply: Reply, stamp: Stamp): Message {
    Message(stamp.id, Agent, reply.text, stamp.time, Some(reply.tags))
  }

  function FailureMessage(stamp: Stamp): Message {
    Message(stamp.id, Agent, APOLOGY, stamp.time, None)
  }

  /** The success update of one conversation: the reply is appended and its
      classification written; the conversation's channel is not. */
  function WithReply(c: Conversation, m: Message, reply: Reply): Conversation {
    var t := reply.tags;
    c.(messages := c.messages + [m],
       lastMessage := Preview(reply.text),
       topicCategory := t.topicCategory,
       urgencyLevel := t.urgencyLevel,
       escalated := t.escalated,
       escalationReason := t.escalationReason,
       resolutionStatus := t.resolutionStatus,
       status := if t.escalated then Escalated else Active)
  }

  /** The store once the call's outcome has been reconciled. The fallback
      classification comes from the context's snapshot. */
  function StoreAfter(cs: seq<Conversation>, ctx: SendContext, outcome: CallOutcome, stamp: Stamp): seq<Conversation> {
    if Succeeded(outcome) then
      var reply := Normalize(outcome.result.response.value, ctx.snapshot);
      var m := AgentMessage(reply, stamp);
      UpdateWhere(cs, ctx.convoId, c => WithReply(c, m, reply))
    else if outcome.Returned? then
      var m := FailureMessage(stamp);
      UpdateWhere(cs, ctx.convoId, c => WithMessage(c, m))
    else
      cs
  }

  /** The entries logged after the call returns or throws. */
  function EventsAfter(outcome: CallOutcome, time: string): seq<ActivityEvent> {
    match outcome
    case Thrown => [ActivityEvent(Error, "Network error occurred", time, "System")]
    case Returned(r) =>
      [ActivityEvent(Processing, "Formatting channel response...", time, "Channel Response Agent")]
      + if Succeeded(outcome) then [ActivityEvent(Completion, "Response delivered successfully", time, "Coordinator")]
        else [ActivityEvent(Error, Or(r.error, "Failed to get response"), time, "System")]
  }

  /** On success exactly one agent message carrying the normalized
      classification is appended; the classification is written into the
      conversation, the status is escalated when the reply says so and active
      otherwise, the preview
      is the shortened text, and every other field of the conversation stays. */
  lemma SuccessEffect(cs: seq<Conversation>, ctx: SendContext, outcome: CallOutcome, stamp: Stamp, i: nat)
    requires Succeeded(outcome) && i < |cs| && cs[i].id == ctx.convoId
    ensures var reply := Normalize(outcome.result.response.value, ctx.snapshot);
      var c, after := cs[i], StoreAfter(cs, ctx, outcome, stamp)[i];
      && after.messages == c.messages + [Message(stamp.id, Agent, reply.text, stamp.time, Some(reply.tags))]
      && after.topicCategory == reply.tags.topicCategory
      && after.urgencyLevel == reply.tags.urgencyLevel
      && after.escalated == reply.tags.escalated
      && after.escalationReason == reply.tags.escalationReason
      && after.resolutionStatus == reply.tags.resolutionStatus
      && after.status == (if reply.tags.escalated then Escalated else Active)
      && after.lastMessage == Preview(reply.text)
      && after.(messages := c.messages, lastMessage := c.lastMessage, topicCategory := c.topicCategory,
                urgencyLevel := c.urgencyLevel, escalated := c.escalated,
                escalationReason := c.escalationReason, resolutionStatus := c.resolutionStatus,
                status := c.status) == c
  {
  }

  /** A `success: false` result (or a missing response) appends one apology
      without classification and leaves classification, status and preview. */
  lemma FailurePreservesClassification(cs: seq<Conversation>, ctx: SendContext, r: CallResult, stamp: Stamp, i: nat)
    requires !(r.success && r.response.Some?) && i < |cs|
    ensures var c, after := cs[i], StoreAfter(cs, ctx, Returned(r), stamp)[i];
      && (c.id == ctx.convoId ==>
            after.messages == c.messages + [Message(stamp.id, Agent, APOLOGY, stamp.time, None)]
            && after.(messages := c.messages) == c)
      && (c.id != ctx.convoId ==> after == c)
  {
  }

  /** A thrown call leaves the store untouched and logs a network error. */
  lemma ThrownChangesNoConversation(cs: seq<Conversation>, ctx: SendContext, stamp: Stamp, time: string)
    ensures StoreAfter(cs, ctx, Thrown, stamp) == cs
    ensures EventsAfter(Thrown, time) == [ActivityEvent(Error, "Network error occurred", time, "System")]
  {
  }

  /** The log of a completed call ends with one completion entry on success and
      with one error entry otherwise. */
  lemma EventsEndWithOutcome(outcome: CallOutcome, time: string)
    ensures var es := EventsAfter(outcome, time);
      && es != []
      && (es[|es| - 1].kind == Completion <==> Succeeded(outcome))
      && (es[|es| - 1].kind == Error <==> !Succeeded(outcome))
      && (forall k :: 0 <= k < |es| - 1 ==> es[k].kind == Processing)
  {
  }

  /** Presence-aware de-escalation: a reply with `escalated: false` makes an
      escalated conversation active, and a reply without the key keeps it
      escalated (when the snapshot was escalated). */
  lemma ReplyEscalation(cs: seq<Conversation>, ctx: SendContext, resp: AgentResponse, error: Option<string>,
                        stamp: Stamp, i: nat)
    requires i < |cs| && cs[i].id == ctx.convoId && ctx.snapshot.escalated
    ensures var after := StoreAfter(cs, ctx, Returned(CallResult(true, Some(resp), error)), stamp)[i];
      && (ResData(resp).escalated == Some(false) ==> !after.escalated && after.status == Active)
      && (ResData(resp).escalated.None? ==> after.escalated && after.status == Escalated)
  {
    EscalatedPresenceAware(ResData(resp), ctx.snapshot);
  }

  /** The fallbacks come from the snapshot, not from the conversation at
      completion: an Escalate pressed while the call was in flight is undone by
      a reply that does not mention escalation, when the snapshot was not
      escalated. */
  lemma SnapshotOverridesConcurrentEscalate(cs: seq<Conversation>, ctx: SendContext, resp: AgentResponse,
                                            stamp: Stamp, i: nat)
    requires i < |cs| && cs[i].id == ctx.convoId
    requires !ctx.snapshot.escalated && ResData(resp).escalated.None?
    ensures var during := Conversations.Escalate(cs, ctx.convoId);
      var after := StoreAfter(during, ctx, Returned(CallResult(true, Some(resp), None)), stamp)[i];
      during[i].escalated && !after.escalated && after.status == Active
  {
    EscalatedPresenceAware(ResData(resp), ctx.snapshot);
  }

  // ---------------------------------------------------------------------------
  // The whole lifecycle
  // ---------------------------------------------------------------------------

  /** The store after a whole send: the customer message, then the outcome. */
  function Lifecycle(cs: seq<Conversation>, ctx: SendContext, outcome: CallOutcome, msgStamp: Stamp, replyStamp: Stamp)
    : seq<Conversation>
  {
    StoreAfter(AppendCustomer(cs, ctx.convoId, CustomerMessage(ctx.text, msgStamp)), ctx, outcome, replyStamp)
  }

  /** Ordering: the selected conversation gains the customer's message and then
      at most one agent message (none when the call threw); no other
      conversation changes. */
  lemma CustomerPrecedesReply(cs: seq<Conversation>, ctx: SendContext, outcome: CallOutcome,
                              msgStamp: Stamp, replyStamp: Stamp, i: nat)
    requires i < |cs|
    ensures var after := Lifecycle(cs, ctx, outcome, msgStamp, replyStamp);
      && |after| == |cs|
      && (cs[i].id != ctx.convoId ==> after[i] == cs[i])
      && (cs[i].id == ctx.convoId ==>
            var added := after[i].messages[|cs[i].messages|..];
            && after[i].messages[..|cs[i].messages|] == cs[i].messages
            && 1 <= |added| <= 2
            && added[0] == CustomerMessage(ctx.text, msgStamp)
            && (|added| == 2 <==> outcome.Returned?)
            && (|added| == 2 ==> added[1].sender == Agent))
  {
    var mid := AppendCustomer(cs, ctx.convoId, CustomerMessage(ctx.text, msgStamp));
    AppendCustomerSpec(cs, ctx.convoId, CustomerMessage(ctx.text, msgStamp), i);
    if cs[i].id == ctx.convoId {
      var old_ := cs[i].messages;
      var after := Lifecycle(cs, ctx, outcome, msgStamp, replyStamp);
      if Succeeded(outcome) {
        SuccessEffect(mid, ctx, outcome, replyStamp, i);
      } else if outcome.Returned? {
        FailurePreservesClassification(mid, ctx, outcome.result, replyStamp, i);
      }
      assert after[i].messages[..|old_|] == old_;
    }
  }

  // ---------------------------------------------------------------------------
  // The console state
  // ---------------------------------------------------------------------------

  /** The page's state: the conversation store, the selection and the input
      box, the one global loading flag, the active agent, the activity log and
      whether an event stream is open. `streamConfigured` says whether the
      client has an API key to open one with. */
  class Console {
    var conversations: seq<Conversation>
    var selectedId: string
    var messageInput: string
    var loading: bool
    var activeAgent: Option<string>
    var events: seq<ActivityEvent>
    var streamOpen: bool
    const streamConfigured: bool

    constructor (cs: seq<Conversation>, selectedId: string, streamConfigured: bool)
      ensures conversations == cs && this.selectedId == selectedId && this.streamConfigured == streamConfigured
      ensures messageInput == "" && !loading && activeAgent.None? && events == [] && !streamOpen
    {
      conversations := cs;
      this.selectedId := selectedId;
      this.streamConfigured := streamConfigured;
      messageInput := "";
      loading := false;
      activeAgent := None;
      events := [];
      streamOpen := false;
    }

    /** The guard and the optimistic update: a blank input, a missing selection
        or a send in flight changes nothing; otherwise the customer message is
        appended, the input cleared, loading set, the coordinator made active
        and the activity log restarted. */
    method BeginSend(msgStamp: Stamp, time: string) returns (ctx: Option<SendContext>)
      modifies this
      ensures ctx.Some? <==> old(CanSend(messageInput, conversations, selectedId, loading))
      ensures ctx.None? ==> unchanged(this)
      ensures ctx.Some? ==>
        && ctx.value == old(ContextOf(messageInput, conversations, selectedId))
        && conversations == AppendCustomer(old(conversations), old(selectedId), CustomerMessage(ctx.value.text, msgStamp))
        && messageInput == "" && loading && activeAgent == Some(COORDINATOR_ID)
        && events == StartEvents(time)
        && selectedId == old(selectedId) && streamOpen == old(streamOpen)
    {
      var found := FindById(conversations, selectedId);
      if Trim(messageInput) == "" || found.None? || loading {
        return None;
      }
      ctx := Some(ContextOf(messageInput, conversations, selectedId));
      conversations := AppendCustomer(conversations, selectedId, CustomerMessage(ctx.value.text, msgStamp));
      messageInput := "";
      loading := true;
      activeAgent := Some(COORDINATOR_ID);
      events := StartEvents(time);
    }

    /** Opens the event stream when the client is configured for one. */
    method OpenStream()
      modifies this`streamOpen
      ensures streamOpen == (old(streamOpen) || streamConfigured)
    {
      if streamConfigured {
        streamOpen := true;
      }
    }

    /** A frame arriving on the stream: appended when the stream is open and the
        frame is kept by the classifier; dropped otherwise. */
    method OnStreamEvent(frame: Frame, time: string)
      modifies this`events
      ensures events == old(events) +
        (if streamOpen && ClassifyFrame(frame, time).Some? then [ClassifyFrame(frame, time).value] else [])
    {
      if streamOpen {
        var e := ClassifyFrame(frame, time);
        if e.Some? {
          events := events + [e.value];
        }
      }
    }

    /** Logs the query entry just before the agent is called. */
    method StartCall(time: string)
      modifies this`events
      ensures events == old(events) + [QueryEvent(time)]
    {
      events := events + [QueryEvent(time)];
    }

    /** Reconciles the call's outcome into the store and the log. */
    method CompleteSend(ctx: SendContext, outcome: CallOutcome, replyStamp: Stamp, time: string)
      modifies this`conversations, this`events
      ensures conversations == StoreAfter(old(conversations), ctx, outcome, replyStamp)
      ensures events == old(events) + EventsAfter(outcome, time)
    {
      match outcome
      case Thrown =>
        events := events + [ActivityEvent(Error, "Network error occurred", time, "System")];
      case Returned(r) =>
        events := events + [ActivityEvent(Processing, "Formatting channel response...", time, "Channel Response Agent")];
        if r.success && r.response.Some? {
          var reply := Normalize(r.response.value, ctx.snapshot);
          var m := AgentMessage(reply, replyStamp);
          conversations := UpdateWhere(conversations, ctx.convoId, c => WithReply(c, m, reply));
          events := events + [ActivityEvent(Completion, "Response delivered successfully", time, "Coordinator")];
        } else {
          var m := FailureMessage(replyStamp);
          conversations := UpdateWhere(conversations, ctx.convoId, c => WithMessage(c, m));
          events := events + [ActivityEvent(Error, Or(r.error, "Failed to get response"), time, "System")];
        }
    }

    /** The `finally` step: loading cleared, no active agent, stream closed. */
    method Finalize()
      modifies this`loading, this`activeAgent, this`streamOpen
      ensures !loading && activeAgent.None? && !streamOpen
    {
      loading := false;
      activeAgent := None;
      streamOpen := false;
    }

    /** The whole send handler with no stream frame delivered during the call:
        either nothing changes, or the store is the lifecycle's result, the log
        holds exactly this lifecycle's entries and the finalization has run. */
    method HandleSendMessage(outcome: CallOutcome, msgStamp: Stamp, replyStamp: Stamp, time: string)
      returns (sent: bool)
      modifies this
      ensures sent <==> old(CanSend(messageInput, conversations, selectedId, loading))
      ensures !sent ==> unchanged(this)
      ensures sent ==>
        && conversations == Lifecycle(old(conversations), old(ContextOf(messageInput, conversations, selectedId)),
                                      outcome, msgStamp, replyStamp)
        && events == StartEvents(time) + [QueryEvent(time)] + EventsAfter(outcome, time)
        && messageInput == "" && !loading && activeAgent.None? && !streamOpen
        && selectedId == old(selectedId)
    {
      var ctx := BeginSend(msgStamp, time);
      if ctx.None? {
        return false;
      }
      RunCall(ctx.value, outcome, replyStamp, time);
      sent := true;
    }

    /** Everything after the optimistic update: the stream is opened, the query
        logged, the outcome reconciled and the state finalized. */
    method RunCall(ctx: SendContext, outcome: CallOutcome, replyStamp: Stamp, time: string)
      modifies this
      ensures conversations == StoreAfter(old(conversations), ctx, outcome, replyStamp)
      ensures events == old(events) + [QueryEvent(time)] + EventsAfter(outcome, time)
      ensures !loading && activeAgent.None? && !streamOpen
      ensures messageInput == old(messageInput) && selectedId == old(selectedId)
    {
      OpenStream();
      StartCall(time);
      CompleteSend(ctx, outcome, replyStamp, time);
      Finalize();
    }

    /** The Escalate button: applies to the selected conversation, in flight or not. */
    method Escalate()
      modifies this`conversations
      ensures conversations == Conversations.Escalate(old(conversations), selectedId)
    {
      conversations := Conversations.Escalate(conversations, selectedId);
    }

    /** The Mark Resolved button: applies to the selected conversation, in flight or not. */
    method MarkResolved()
      modifies this`conversations
      ensures conversations == Conversations.MarkResolved(old(conversations), selectedId)
    {
      conversations := Conversations.MarkResolved(conversations, selectedId);
    }
  }
}
