/**
 * The client's chat state (`ChatProvider`): the conversation list, the active conversation id and
 * the typing flag, changed through React state setters. The functional updates passed to
 * `setConversations` are the pure functions below. Generated ids, clock readings and server
 * answers are parameters.
 */
module ChatContext {
  import opened Shared

  datatype Message = Message(id: string, content: string, sender: Sender, timestamp: Time)

  datatype Conversation = Conversation(
    id: string, title: string, summary: string, messages: seq<Message>, createdAt: Time, insights: Option<Insights>)

  /** The JSON answer of `POST /api/chat` as the client reads it; absent fields are `None`. */
  datatype ChatReply = ChatReply(reply: string, title: Option<string>, summary: Option<string>, insights: Option<Insights>)

  /** The `conversations` field of the `GET /api/conversations` answer: an array, or anything else. */
  datatype ConversationsField = NotAnArray | AnArray(conversations: seq<Conversation>)

  /** How loading the list ended: the request or its JSON decoding threw, or a body arrived. */
  datatype LoadOutcome = LoadFailed | Loaded(field: ConversationsField)

  /** The conversation `startNewConversation` and `sendMessage` create locally. */
  function NewConversation(id: string, now: Time): Conversation
  {
    Conversation(id, NewConversationTitle, "", [], now, None)
  }

  /** `prev.map(conv => conv.id === id ? f(conv) : conv)` */
  function UpdateWhere(prev: seq<Conversation>, id: string, f: Conversation -> Conversation): (r: seq<Conversation>)
    ensures |r| == |prev|
    ensures forall i | 0 <= i < |prev| :: r[i] == if prev[i].id == id then f(prev[i]) else prev[i]
  {
    if prev == [] then []
    else [if prev[0].id == id then f(prev[0]) else prev[0]] + UpdateWhere(prev[1..], id, f)
  }

  function AppendMessage(c: Conversation, m: Message): Conversation
  {
    c.(messages := c.messages + [m])
  }

  /** The reply merge: append the assistant's message and take each field from the answer when it is truthy. */
  function Merged(c: Conversation, aiMessage: Message, data: ChatReply): (r: Conversation)
    ensures r.id == c.id && r.createdAt == c.createdAt
    ensures r.messages == c.messages + [aiMessage]
    ensures r.title == (if Truthy(data.title) then data.title.value else c.title)
    ensures r.summary == (if Truthy(data.summary) then data.summary.value else c.summary)
    ensures r.insights == (if data.insights.Some? then data.insights else c.insights)
  {
    c.(messages := c.messages + [aiMessage],
       title := OrElse(data.title, c.title),
       summary := OrElse(data.summary, c.summary),
       insights := if data.insights.Some? then data.insights else c.insights)
  }

  /** The user-message updater: the message goes at the end of every conversation with that id, nothing else changes. */
  function WithUserMessage(prev: seq<Conversation>, id: string, userMessage: Message): (r: seq<Conversation>)
    ensures |r| == |prev|
    ensures forall i | 0 <= i < |prev| :: r[i].id == prev[i].id
    ensures forall i | 0 <= i < |prev| && prev[i].id == id :: r[i] == prev[i].(messages := prev[i].messages + [userMessage])
    ensures forall i | 0 <= i < |prev| && prev[i].id != id :: r[i] == prev[i]
  {
    UpdateWhere(prev, id, c => AppendMessage(c, userMessage))
  }

  /** The reply updater: the matching conversations get the merge, the others stay as they are. */
  function WithReply(prev: seq<Conversation>, id: string, aiMessage: Message, data: ChatReply): (r: seq<Conversation>)
    ensures |r| == |prev|
    ensures forall i | 0 <= i < |prev| && prev[i].id == id :: r[i] == Merged(prev[i], aiMessage, data)
    ensures forall i | 0 <= i < |prev| && prev[i].id != id :: r[i] == prev[i]
  {
    UpdateWhere(prev, id, c => Merged(c, aiMessage, data))
  }

  /** The server's chat answer carries only `reply`; merging such an answer changes nothing but the messages. */
  lemma ReplyOnlyAnswerKeepsFields(c: Conversation, aiMessage: Message, reply: string)
    ensures Merged(c, aiMessage, ChatReply(reply, None, None, None)) == AppendMessage(c, aiMessage)
  {
  }

  /** `conversations.find(c => c.id === id)` */
  function FindById(conversations: seq<Conversation>, id: string): (r: Option<Conversation>)
    ensures r.None? <==> forall i | 0 <= i < |conversations| :: conversations[i].id != id
    ensures r.Some? ==> exists i :: 0 <= i < |conversations| && conversations[i] == r.value && r.value.id == id
                                    && forall j | 0 <= j < i :: conversations[j].id != id
  {
    if conversations == [] then None
    else if conversations[0].id == id then Some(conversations[0])
    else
      var r := FindById(conversations[1..], id);
      assert r.Some? ==> exists i :: 0 <= i < |conversations| && conversations[i] == r.value && r.value.id == id
                                     && forall j | 0 <= j < i :: conversations[j].id != id by {
        if r.Some? {
          var k :| 0 <= k < |conversations[1..]| && conversations[1..][k] == r.value && r.value.id == id
                   && forall j | 0 <= j < k :: conversations[1..][j].id != id;
          assert conversations[k + 1] == r.value;
          assert forall j | 0 <= j < k + 1 :: conversations[j].id != id by {
            forall j | 0 <= j < k + 1 ensures conversations[j].id != id {
              if j > 0 { assert conversations[j] == conversations[1..][j - 1]; }
            }
          }
        }
      }
      r
  }

  /** `activeConversation`: nothing when no id is active, otherwise the first conversation with that id. */
  function ActiveOf(conversations: seq<Conversation>, activeId: Option<string>): (r: Option<Conversation>)
    ensures !Truthy(activeId) ==> r.None?
    ensures Truthy(activeId) ==> r == FindById(conversations, activeId.value)
  {
    if Truthy(activeId) then FindById(conversations, activeId.value) else None
  }

  class ChatProvider {
    var conversations: seq<Conversation>
    var activeConversationId: Option<string>
    var isAiTyping: bool
    var isMobileSidebarOpen: bool
    var isInsightPanelOpen: bool

    constructor ()
      ensures conversations == [] && activeConversationId.None?
      ensures !isAiTyping && !isMobileSidebarOpen && !isInsightPanelOpen
    {
      conversations := [];
      activeConversationId := None;
      isAiTyping := false;
      isMobileSidebarOpen := false;
      isInsightPanelOpen := false;
    }

    function ActiveConversation(): (r: Option<Conversation>)
      reads this
    {
      ActiveOf(conversations, activeConversationId)
    }

    method SetActiveConversationId(id: string)
      modifies this
      ensures activeConversationId == Some(id)
      ensures conversations == old(conversations) && isAiTyping == old(isAiTyping)
      ensures isMobileSidebarOpen == old(isMobileSidebarOpen) && isInsightPanelOpen == old(isInsightPanelOpen)
    {
      activeConversationId := Some(id);
    }

    /** `startNewConversation`: put a new empty conversation on top, make it active, close the mobile sidebar. */
    method StartNewConversation(newId: string, now: Time)
      modifies this
      ensures conversations == [NewConversation(newId, now)] + old(conversations)
      ensures activeConversationId == Some(newId) && !isMobileSidebarOpen
      ensures newId != "" ==> ActiveConversation() == Some(NewConversation(newId, now))
      ensures isAiTyping == old(isAiTyping) && isInsightPanelOpen == old(isInsightPanelOpen)
    {
      var created := NewConversation(newId, now);
      conversations := [created] + conversations;
      activeConversationId := Some(newId);
      isMobileSidebarOpen := false;
    }

    /**
     * `loadConversations`: an array replaces the list and, when nothing is active, activates its
     * first entry; any other body changes nothing; a failure starts a new conversation if the list is empty.
     */
    method LoadConversations(outcome: LoadOutcome, newId: string, now: Time)
      modifies this
      ensures outcome.Loaded? && outcome.field.AnArray? ==>
        var loaded := outcome.field.conversations;
        && conversations == loaded
        && activeConversationId == (if |loaded| > 0 && !Truthy(old(activeConversationId)) then Some(loaded[0].id)
                                    else old(activeConversationId))
        && isMobileSidebarOpen == old(isMobileSidebarOpen)
      ensures outcome.Loaded? && outcome.field.NotAnArray? ==>
        conversations == old(conversations) && activeConversationId == old(activeConversationId)
        && isMobileSidebarOpen == old(isMobileSidebarOpen)
      ensures outcome.LoadFailed? && old(conversations) == [] ==>
        conversations == [NewConversation(newId, now)] && activeConversationId == Some(newId) && !isMobileSidebarOpen
      ensures outcome.LoadFailed? && old(conversations) != [] ==>
        conversations == old(conversations) && activeConversationId == old(activeConversationId)
        && isMobileSidebarOpen == old(isMobileSidebarOpen)
      ensures isAiTyping == old(isAiTyping) && isInsightPanelOpen == old(isInsightPanelOpen)
    {
      match outcome
      case Loaded(field) =>
        if field.AnArray? {
          conversations := field.conversations;
          if |field.conversations| > 0 && !Truthy(activeConversationId) {
            activeConversationId := Some(field.conversations[0].id);
          }
        }
      case LoadFailed =>
        if |conversations| == 0 {
          StartNewConversation(newId, now);
        }
    }

    /**
     * `sendMessage` up to its request: with no active conversation, start one under `newConversationId`;
     * append the user's message to the target conversation; raise the typing flag. Returns the target
     * id, which the rest of the call keeps using.
     */
    method BeginSend(content: string, newConversationId: string, userMessageId: string, now: Time) returns (target: string)
      modifies this
      ensures isAiTyping
      ensures var userMessage := Message(userMessageId, content, User, now);
        if Truthy(old(activeConversationId)) then
          && target == old(activeConversationId).value
          && conversations == WithUserMessage(old(conversations), target, userMessage)
          && activeConversationId == old(activeConversationId)
        else
          && target == newConversationId
          && conversations == WithUserMessage([NewConversation(newConversationId, now)] + old(conversations), target, userMessage)
          && activeConversationId == Some(newConversationId)
      ensures isMobileSidebarOpen == old(isMobileSidebarOpen) && isInsightPanelOpen == old(isInsightPanelOpen)
    {
      if !Truthy(activeConversationId) {
        var created := NewConversation(newConversationId, now);
        conversations := [created] + conversations;
        activeConversationId := Some(newConversationId);
        target := newConversationId;
      } else {
        target := activeConversationId.value;
      }
      var userMessage := Message(userMessageId, content, User, now);
      conversations := WithUserMessage(conversations, target, userMessage);
      isAiTyping := true;
    }

    /**
     * `sendMessage` after its request: on an answer, merge it into the target conversation; on a
     * failure, leave the list alone; either way lower the typing flag.
     */
    method FinishSend(target: string, answer: Option<ChatReply>, aiMessageId: string, now: Time)
      modifies this
      ensures !isAiTyping
      ensures answer.Some? ==>
        conversations == WithReply(old(conversations), target, Message(aiMessageId, answer.value.reply, Ai, now), answer.value)
      ensures answer.None? ==> conversations == old(conversations)
      ensures activeConversationId == old(activeConversationId)
      ensures isMobileSidebarOpen == old(isMobileSidebarOpen) && isInsightPanelOpen == old(isInsightPanelOpen)
    {
      if answer.Some? {
        var aiMessage := Message(aiMessageId, answer.value.reply, Ai, now);
        conversations := WithReply(conversations, target, aiMessage, answer.value);
      }
      isAiTyping := false;
    }
  }

  /** With nothing active, the new conversation ends up on top holding just the user's message. */
  lemma FirstMessageStartsConversation(prev: seq<Conversation>, id: string, now: Time, userMessage: Message)
    ensures var r := WithUserMessage([NewConversation(id, now)] + prev, id, userMessage);
      && |r| == |prev| + 1
      && r[0] == Conversation(id, NewConversationTitle, "", [userMessage], now, None)
      && forall i | 0 <= i < |prev| && prev[i].id != id :: r[i + 1] == prev[i]
  {
    var s := [NewConversation(id, now)] + prev;
    assert forall i | 0 <= i < |prev| :: s[i + 1] == prev[i];
  }
}
