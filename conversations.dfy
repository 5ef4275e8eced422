/** The console's conversation store as values: the entities of the console,
    the map-with-spread updates it applies to the store, the list filter and
    the ticket counters. */
module Conversations {
  import opened Wrappers
  import opened Text
  import Lists

  datatype Sender = Customer | Agent

  datatype Channel = Chat | Email | Social

  datatype Status = Active | Pending | Escalated

  /** The text the source uses for a channel (`'chat' | 'email' | 'social'`). */
  function ChannelName(c: Channel): string {
    match c
    case Chat => "chat"
    case Email => "email"
    case Social => "social"
  }

  /** The classification an agent reply carries. The source writes the six
      optional message fields together or not at all, so they are one value. */
  datatype Tags = Tags(
    channel: string,
    topicCategory: string,
    urgencyLevel: string,
    escalated: bool,
    escalationReason: string,
    resolutionStatus: string)

  datatype Message = Message(
    id: string,
    sender: Sender,
    text: string,
    timestamp: string,
    tags: Option<Tags>)

  datatype Conversation = Conversation(
    id: string,
    customerName: string,
    customerEmail: string,
    lastMessage: string,
    channel: Channel,
    status: Status,
    timestamp: string,
    unreadCount: int,
    messages: seq<Message>,
    topicCategory: string,
    urgencyLevel: string,
    escalated: bool,
    escalationReason: string,
    resolutionStatus: string)

  const ESCALATION_REASON := "Manually escalated by agent"

  // ---------------------------------------------------------------------------
  // Lookup and per-id update
  // ---------------------------------------------------------------------------

  /** `conversations.find(c => c.id === id)`: the first conversation with that id. */
  function FindById(cs: seq<Conversation>, id: string): (r: Option<Conversation>)
    ensures r.None? <==> forall i :: 0 <= i < |cs| ==> cs[i].id != id
    ensures r.Some? ==> exists i :: 0 <= i < |cs| && cs[i] == r.value && cs[i].id == id
                                   && forall j :: 0 <= j < i ==> cs[j].id != id
  {
    if cs == [] then None
    else if cs[0].id == id then Some(cs[0])
    else
      var r := FindById(cs[1..], id);
      assert forall i :: 0 <= i < |cs| - 1 ==> cs[1..][i] == cs[i + 1];
      r
  }

  /** `cs.map(c => c.id === id ? f(c) : c)`. */
  function UpdateWhere(cs: seq<Conversation>, id: string, f: Conversation -> Conversation): (r: seq<Conversation>)
    ensures |r| == |cs|
    ensures forall i :: 0 <= i < |cs| ==> r[i] == if cs[i].id == id then f(cs[i]) else cs[i]
  {
    seq(|cs|, i requires 0 <= i < |cs| => if cs[i].id == id then f(cs[i]) else cs[i])
  }

  /** `{ ...c, messages: [...c.messages, m] }`. */
  function WithMessage(c: Conversation, m: Message): Conversation {
    c.(messages := c.messages + [m])
  }

  // ---------------------------------------------------------------------------
  // Operator actions: Escalate and Mark Resolved
  // ---------------------------------------------------------------------------

  function EscalateOne(c: Conversation): Conversation {
    c.(escalated := true, status := Escalated, resolutionStatus := "escalated",
       escalationReason := ESCALATION_REASON)
  }

  function ResolveOne(c: Conversation): Conversation {
    c.(resolutionStatus := "resolved", status := Active, escalated := false)
  }

  /** The Escalate button applied to the store. */
  function Escalate(cs: seq<Conversation>, id: string): seq<Conversation> {
    UpdateWhere(cs, id, EscalateOne)
  }

  /** The Mark Resolved button applied to the store. */
  function MarkResolved(cs: seq<Conversation>, id: string): seq<Conversation> {
    UpdateWhere(cs, id, ResolveOne)
  }

  /** Escalate touches only the conversations with the selected id, and on them
      only the four escalation fields; messages and customer data stay. */
  lemma EscalateEffect(cs: seq<Conversation>, id: string, i: nat)
    requires i < |cs|
    ensures |Escalate(cs, id)| == |cs|
    ensures cs[i].id != id ==> Escalate(cs, id)[i] == cs[i]
    ensures cs[i].id == id ==>
      var c, e := cs[i], Escalate(cs, id)[i];
      && e.escalated && e.status == Escalated && e.resolutionStatus == "escalated"
      && e.escalationReason == ESCALATION_REASON
      && e.(escalated := c.escalated, status := c.status, resolutionStatus := c.resolutionStatus,
            escalationReason := c.escalationReason) == c
  {
  }

  /** Mark Resolved touches only the conversations with the selected id, sets
      three fields and leaves the escalation reason as it was. */
  lemma MarkResolvedEffect(cs: seq<Conversation>, id: string, i: nat)
    requires i < |cs|
    ensures |MarkResolved(cs, id)| == |cs|
    ensures cs[i].id != id ==> MarkResolved(cs, id)[i] == cs[i]
    ensures cs[i].id == id ==>
      var c, e := cs[i], MarkResolved(cs, id)[i];
      && !e.escalated && e.status == Active && e.resolutionStatus == "resolved"
      && e.escalationReason == c.escalationReason
      && e.(escalated := c.escalated, status := c.status, resolutionStatus := c.resolutionStatus) == c
  {
  }

  /** Pressing either button twice is the same as pressing it once. */
  lemma OperatorActionsIdempotent(cs: seq<Conversation>, id: string)
    ensures Escalate(Escalate(cs, id), id) == Escalate(cs, id)
    ensures MarkResolved(MarkResolved(cs, id), id) == MarkResolved(cs, id)
  {
  }

  /** Mark Resolved after Escalate leaves the conversation unescalated and active
      but still carrying the manual escalation reason. */
  lemma ResolveAfterEscalate(cs: seq<Conversation>, id: string, i: nat)
    requires i < |cs| && cs[i].id == id
    ensures var r := MarkResolved(Escalate(cs, id), id)[i];
      !r.escalated && r.status == Active && r.escalationReason == ESCALATION_REASON
  {
  }

  // ---------------------------------------------------------------------------
  // Last-message preview
  // ---------------------------------------------------------------------------

  /** `text.slice(0, 60) + (text.length > 60 ? '...' : '')`. */
  function Preview(text: string): string {
    Take(text, 60) + (if |text| > 60 then "..." else "")
  }

  /** A preview is the text itself when it is short, and otherwise its first 60
      characters followed by an ellipsis. */
  lemma PreviewSpec(text: string)
    ensures |text| <= 60 ==> Preview(text) == text
    ensures |text| > 60 ==> |Preview(text)| == 63 && Preview(text) == text[..60] + "..."
    ensures |Preview(text)| <= 63
  {
  }

  // ---------------------------------------------------------------------------
  // The conversation list filter and the ticket counters
  // ---------------------------------------------------------------------------

  /** The channel filter's value: `'all'` or one channel. */
  datatype ChannelFilter = All | Only(channel: Channel)

  /** One conversation passes the list filter: its channel matches, and the
      lower-cased search text `q` is empty or occurs in the lower-cased customer
      name or last message. */
  predicate Matches(c: Conversation, filter: ChannelFilter, q: string) {
    var matchesChannel := filter.All? || c.channel == filter.channel;
    var matchesSearch := q == "" || Contains(Lower(c.customerName), q) || Contains(Lower(c.lastMessage), q);
    matchesChannel && matchesSearch
  }

  /** The list filter for an already lower-cased search text. */
  function FilterLowered(cs: seq<Conversation>, filter: ChannelFilter, q: string): seq<Conversation> {
    Lists.Filter(cs, c => Matches(c, filter, q))
  }

  /** `filteredConvos`: the search text is lower-cased once (an empty text stays
      empty, so `!searchQuery` is the same test on it). */
  function FilterConversations(cs: seq<Conversation>, filter: ChannelFilter, query: string): seq<Conversation> {
    FilterLowered(cs, filter, Lower(query))
  }

  /** The filtered list holds exactly the conversations that match, and with
      no channel filter and no search text it is the whole list. */
  lemma FilterConversationsSpec(cs: seq<Conversation>, filter: ChannelFilter, query: string)
    ensures var r := FilterConversations(cs, filter, query);
      && |r| <= |cs|
      && (forall i :: 0 <= i < |r| ==> r[i] in cs && Matches(r[i], filter, Lower(query)))
      && (forall i :: 0 <= i < |cs| && Matches(cs[i], filter, Lower(query)) ==> cs[i] in r)
    ensures filter.All? && query == "" ==> FilterConversations(cs, filter, query) == cs
  {
    if filter.All? && query == "" {
      Lists.FilterKeepsAll(cs, c => Matches(c, filter, Lower(query)));
    }
  }

  /** The search is case-insensitive: searching for an upper-cased query finds
      the same conversations. */
  lemma FilterIgnoresQueryCase(cs: seq<Conversation>, filter: ChannelFilter, query: string)
    ensures FilterConversations(cs, filter, Upper(query)) == FilterConversations(cs, filter, query)
  {
    LowerOfUpper(query);
  }

  predicate IsOpenTicket(c: Conversation) {
    c.status == Pending || c.status == Escalated
  }

  predicate IsEscalatedTicket(c: Conversation) {
    c.status == Escalated
  }

  /** The sidebar's open-ticket count. */
  function OpenTickets(cs: seq<Conversation>): nat {
    |Lists.Filter(cs, IsOpenTicket)|
  }

  /** The sidebar's escalated count. */
  function EscalatedCount(cs: seq<Conversation>): nat {
    |Lists.Filter(cs, IsEscalatedTicket)|
  }

  /** Every escalated ticket is an open ticket, and no count exceeds the list. */
  lemma CountersOrdered(cs: seq<Conversation>)
    ensures EscalatedCount(cs) <= OpenTickets(cs) <= |cs|
  {
    Lists.FilterMonotone(cs, IsEscalatedTicket, IsOpenTicket);
  }

  /** Escalating a conversation that exists makes it count as escalated. */
  lemma EscalateCounts(cs: seq<Conversation>, id: string)
    requires exists i :: 0 <= i < |cs| && cs[i].id == id
    ensures EscalatedCount(Escalate(cs, id)) >= 1
  {
    var i :| 0 <= i < |cs| && cs[i].id == id;
    var e := Escalate(cs, id);
    assert IsEscalatedTicket(e[i]);
    assert e[i] in Lists.Filter(e, IsEscalatedTicket);
  }
}
