/**
 * The HTTP handlers of the server, each a method over the store. Clock readings, generated ids and
 * the completion service are parameters.
 */
module Routes {
  import opened Shared
  import opened Storage

  const MissingFieldsMessage: string := "Conversation ID and message are required"
  const NotFoundMessage: string := "Conversation not found"
  const ChatFailedMessage: string := "Failed to process chat message"
  /** The reply used when the completion comes back without content. */
  const FallbackReply: string := "I'm having trouble processing your message right now."
  /** The reply sent with a 500 when the completion request throws. */
  const ApologyReply: string := "I'm sorry, I'm having trouble processing your message right now. Please try again later."

  datatype Body =
    | ErrorBody(message: string)
    | ErrorWithReply(message: string, reply: string)
    | ReplyBody(reply: string)
    | ConversationBody(conversation: Conversation)
    | ConversationsBody(conversations: seq<Conversation>)

  datatype Response = Response(status: int, body: Body)

  /** The JSON body of `POST /api/chat`; a field may be missing. */
  datatype ChatRequest = ChatRequest(conversationId: Option<string>, message: Option<string>)

  /** The JSON body of `POST /api/conversations`. */
  datatype CreateRequest = CreateRequest(title: Option<string>, summary: Option<string>)

  /** `messages.map(...)`: each stored message under its user/assistant role, in order. */
  function AsPrompts(stored: seq<Message>): (p: seq<PromptMessage>)
    ensures |p| == |stored|
    ensures forall i | 0 <= i < |stored| :: p[i].content == stored[i].content && p[i].role == RoleOf(stored[i].sender)
  {
    seq(|stored|, i requires 0 <= i < |stored| => PromptMessage(RoleOf(stored[i].sender), stored[i].content))
  }

  /** The completion request of the chat turn: the stored history under user/assistant roles, then the user's text again. */
  function ChatPrompt(stored: seq<Message>, text: string): (p: seq<PromptMessage>)
    ensures |p| == |stored| + 1
    ensures p[|stored|] == PromptMessage(UserRole, text)
    ensures p[..|stored|] == AsPrompts(stored)
  {
    AsPrompts(stored) + [PromptMessage(UserRole, text)]
  }

  /** Once the user's message is stored, it is sent twice: as the last stored entry and again after it. */
  lemma UserTextSentTwice(history: seq<Message>, userMessage: Message)
    requires userMessage.sender == User
    ensures var p := ChatPrompt(history + [userMessage], userMessage.content);
      && |p| == |history| + 2
      && p[|p| - 2] == p[|p| - 1] == PromptMessage(UserRole, userMessage.content)
  {
  }

  /** The reply the chat turn stores and returns when the completion succeeds. */
  function ReplyText(content: Option<string>): (reply: string)
    ensures reply != ""
    ensures Truthy(content) ==> reply == content.value
    ensures !Truthy(content) ==> reply == FallbackReply
  {
    OrElse(content, FallbackReply)
  }

  /** `GET /api/conversations`. */
  method ListConversations(store: MemStorage) returns (resp: Response)
    requires store.Valid()
    ensures resp == Response(200, ConversationsBody(store.GetConversations()))
  {
    var conversations := store.GetConversations();
    resp := Response(200, ConversationsBody(conversations));
  }

  /** `GET /api/conversations/:id`: 404 for an unknown id. */
  method GetConversation(store: MemStorage, id: string) returns (resp: Response)
    requires store.Valid()
    ensures resp.status == 404 <==> id !in store.conversations
    ensures resp.status == 404 ==> resp.body == ErrorBody(NotFoundMessage)
    ensures resp.status != 404 ==>
      && resp.status == 200
      && resp.body == ConversationBody(Attach(store.conversations[id], store.messages[id]))
  {
    var conversation := store.GetConversation(id);
    if conversation.None? {
      return Response(404, ErrorBody(NotFoundMessage));
    }
    resp := Response(200, ConversationBody(conversation.value));
  }

  /** `POST /api/conversations`: a missing or empty title or summary gets its default; answers 201. */
  method CreateConversation(store: MemStorage, req: CreateRequest, freshId: string, now: Time) returns (resp: Response)
    requires store.Valid()
    modifies store
    ensures store.Valid()
    ensures resp.status == 201 && resp.body.ConversationBody?
    ensures var c := resp.body.conversation;
      && c == Conversation(freshId, OrElse(req.title, NewConversationTitle), OrElse(req.summary, ""), None, now, now, [])
      && store.conversations == old(store.conversations)[freshId := ConversationRecord(freshId, c.title, c.summary, None, now, now)]
      && store.messages == old(store.messages)[freshId := []]
    ensures store.insertionOrder == if freshId in old(store.conversations) then old(store.insertionOrder) else old(store.insertionOrder) + [freshId]
    ensures store.users == old(store.users) && store.currentId == old(store.currentId)
  {
    var conversation := store.CreateConversation(
      InsertConversation(None, OrElse(req.title, NewConversationTitle), OrElse(req.summary, ""), None), freshId, now);
    resp := Response(201, ConversationBody(conversation));
  }

  /**
   * `POST /api/chat`: validate, find the conversation or start one under a fresh id, store the
   * user's message, ask for a completion, store the reply. Also returns the completion request.
   */
  method Chat(store: MemStorage, req: ChatRequest, freshId: string, now: Time, completion: Completion)
    returns (resp: Response, prompt: seq<PromptMessage>)
    requires store.Valid()
    modifies store
    ensures store.Valid()
    ensures !Truthy(req.conversationId) || !Truthy(req.message) ==>
      resp == Response(400, ErrorBody(MissingFieldsMessage)) && unchanged(store)
    ensures Truthy(req.conversationId) && Truthy(req.message) ==>
      var requested := req.conversationId.value;
      var text := req.message.value;
      var known := requested in old(store.conversations);
      var target := if known then requested else freshId;
      var history := if known then old(store.messages)[requested] else [];
      var userMessage := Message(|history| + 1, target, text, User, now);
      var record := if known then old(store.conversations)[requested]
                    else ConversationRecord(freshId, NewConversationTitle, "", None, now, now);
      && prompt == ChatPrompt(history + [userMessage], text)
      && store.conversations == old(store.conversations)[target := record.(updatedAt := now)]
      && (completion.Threw? ==>
            && resp == Response(500, ErrorWithReply(ChatFailedMessage, ApologyReply))
            && store.messages == old(store.messages)[target := history + [userMessage]])
      && (completion.Completed? ==>
            var reply := ReplyText(completion.content);
            && resp == Response(200, ReplyBody(reply))
            && store.messages == old(store.messages)[target := history + [userMessage, Message(|history| + 2, target, reply, Ai, now)]])
    ensures Truthy(req.conversationId) && req.conversationId.value !in old(store.conversations) && freshId != req.conversationId.value ==>
      req.conversationId.value !in store.conversations
    ensures Truthy(req.conversationId) && Truthy(req.message) ==>
      var target := if req.conversationId.value in old(store.conversations) then req.conversationId.value else freshId;
      store.insertionOrder == if target in old(store.conversations) then old(store.insertionOrder) else old(store.insertionOrder) + [target]
    ensures store.users == old(store.users) && store.currentId == old(store.currentId)
  {
    prompt := [];
    if !Truthy(req.conversationId) || !Truthy(req.message) {
      return Response(400, ErrorBody(MissingFieldsMessage)), prompt;
    }
    var conversationId := req.conversationId.value;
    var message := req.message.value;
    var id := OpenConversation(store, conversationId, freshId, now);
    ghost var msgs1 := store.messages;
    ghost var convs1 := store.conversations;
    resp, prompt := Converse(store, id, message, now, completion);
    UpdateTwice(old(store.messages), id, msgs1[id], store.messages[id]);
    UpdateTwice(old(store.conversations), id, convs1[id], store.conversations[id]);
  }

  /**
   * The chat turn on a stored conversation: store the user's message, read the conversation back,
   * send its history and the user's text, store the reply.
   */
  method Converse(store: MemStorage, id: string, message: string, now: Time, completion: Completion)
    returns (resp: Response, prompt: seq<PromptMessage>)
    requires store.Valid() && id in store.conversations
    modifies store
    ensures store.Valid()
    ensures var history := old(store.messages)[id];
      var userMessage := Message(|history| + 1, id, message, User, now);
      && prompt == ChatPrompt(history + [userMessage], message)
      && store.conversations == old(store.conversations)[id := old(store.conversations)[id].(updatedAt := now)]
      && (completion.Threw? ==>
            && resp == Response(500, ErrorWithReply(ChatFailedMessage, ApologyReply))
            && store.messages == old(store.messages)[id := history + [userMessage]])
      && (completion.Completed? ==>
            var reply := ReplyText(completion.content);
            && resp == Response(200, ReplyBody(reply))
            && store.messages == old(store.messages)[id := history + [userMessage, Message(|history| + 2, id, reply, Ai, now)]])
    ensures store.insertionOrder == old(store.insertionOrder)
    ensures store.users == old(store.users) && store.currentId == old(store.currentId)
  {
    ghost var history := store.messages[id];
    ghost var userMessage := Message(|history| + 1, id, message, User, now);
    var found;
    found, prompt := StoreUserMessage(store, id, message, now);
    if !found {
      return Response(404, ErrorBody(NotFoundMessage)), prompt;
    }
    resp := Answer(store, id, now, completion);
    if completion.Completed? {
      ghost var aiMessage := Message(|history| + 2, id, ReplyText(completion.content), Ai, now);
      AppendTwo(history, userMessage, aiMessage);
      UpdateTwice(old(store.messages), id, history + [userMessage], history + [userMessage, aiMessage]);
    }
    UpdateTwice(old(store.conversations), id, old(store.conversations)[id].(updatedAt := now), old(store.conversations)[id].(updatedAt := now));
  }

  /** The completion's outcome: a 500 that stores nothing more, or the reply stored and returned. */
  method Answer(store: MemStorage, id: string, now: Time, completion: Completion) returns (resp: Response)
    requires store.Valid() && id in store.conversations
    modifies store
    ensures store.Valid()
    ensures completion.Threw? ==> resp == Response(500, ErrorWithReply(ChatFailedMessage, ApologyReply)) && unchanged(store)
    ensures completion.Completed? ==>
      var reply := ReplyText(completion.content);
      var list := old(store.messages)[id];
      && resp == Response(200, ReplyBody(reply))
      && store.messages == old(store.messages)[id := list + [Message(|list| + 1, id, reply, Ai, now)]]
      && store.conversations == old(store.conversations)[id := old(store.conversations)[id].(updatedAt := now)]
    ensures store.insertionOrder == old(store.insertionOrder)
    ensures store.users == old(store.users) && store.currentId == old(store.currentId)
  {
    if completion.Threw? {
      return Response(500, ErrorWithReply(ChatFailedMessage, ApologyReply));
    }
    var reply := ReplyText(completion.content);
    StoreReply(store, id, reply, now);
    resp := Response(200, ReplyBody(reply));
  }

  /** Store the assistant's reply after the messages already there. */
  method StoreReply(store: MemStorage, id: string, reply: string, now: Time)
    requires store.Valid() && id in store.conversations
    modifies store
    ensures store.Valid()
    ensures var list := old(store.messages)[id];
      store.messages == old(store.messages)[id := list + [Message(|list| + 1, id, reply, Ai, now)]]
    ensures store.conversations == old(store.conversations)[id := old(store.conversations)[id].(updatedAt := now)]
    ensures store.insertionOrder == old(store.insertionOrder)
    ensures store.users == old(store.users) && store.currentId == old(store.currentId)
  {
    var added := store.AddMessage(id, InsertMessage(reply, Ai), now);
  }

  /** Store the user's message, read the conversation back, and build the completion request from it. */
  method StoreUserMessage(store: MemStorage, id: string, message: string, now: Time) returns (found: bool, prompt: seq<PromptMessage>)
    requires store.Valid() && id in store.conversations
    modifies store
    ensures store.Valid()
    ensures var history := old(store.messages)[id];
      var userMessage := Message(|history| + 1, id, message, User, now);
      && found
      && prompt == ChatPrompt(history + [userMessage], message)
      && store.messages == old(store.messages)[id := history + [userMessage]]
      && store.conversations == old(store.conversations)[id := old(store.conversations)[id].(updatedAt := now)]
    ensures store.insertionOrder == old(store.insertionOrder)
    ensures store.users == old(store.users) && store.currentId == old(store.currentId)
  {
    var added := store.AddMessage(id, InsertMessage(message, User), now);
    var conversation := store.GetConversation(id);
    if conversation.None? {
      return false, [];
    }
    var stored := conversation.value.messages;
    prompt := AsPrompts(stored);
    prompt := prompt + [PromptMessage(UserRole, message)];
    found := true;
  }

  lemma AppendTwo<T>(s: seq<T>, a: T, b: T)
    ensures (s + [a]) + [b] == s + [a, b]
  {
  }

  lemma UpdateTwice<K, V>(m: map<K, V>, k: K, a: V, b: V)
    ensures m[k := a][k := b] == m[k := b]
  {
  }

  /** The get-or-create step of the chat turn: an unknown id starts a new conversation under `freshId`. */
  method OpenConversation(store: MemStorage, conversationId: string, freshId: string, now: Time) returns (id: string)
    requires store.Valid()
    modifies store
    ensures store.Valid()
    ensures var known := conversationId in old(store.conversations);
      && id == (if known then conversationId else freshId)
      && store.conversations == old(store.conversations)[id :=
           if known then old(store.conversations)[conversationId]
           else ConversationRecord(freshId, NewConversationTitle, "", None, now, now)]
      && store.messages == old(store.messages)[id := if known then old(store.messages)[conversationId] else []]
    ensures store.insertionOrder == if id in old(store.conversations) then old(store.insertionOrder) else old(store.insertionOrder) + [id]
    ensures store.users == old(store.users) && store.currentId == old(store.currentId)
  {
    var conversation := store.GetConversation(conversationId);
    if conversation.None? {
      var created := store.CreateConversation(InsertConversation(None, NewConversationTitle, "", None), freshId, now);
      conversation := Some(created);
    } else {
      assert store.conversations == store.conversations[conversationId := store.conversations[conversationId]];
      assert store.messages == store.messages[conversationId := store.messages[conversationId]];
    }
    id := conversation.value.id;
  }

  /**
   * The client names a new conversation with its own id, which the server does not know; each turn
   * under that id therefore opens another conversation, and the second request carries nothing of the first.
   */
  method RepeatedClientId(store: MemStorage, clientId: string, text: string, fresh1: string, fresh2: string, now: Time,
                           completion1: Completion, completion2: Completion)
    returns (first: seq<PromptMessage>, second: seq<PromptMessage>)
    requires store.Valid()
    requires clientId != "" && text != "" && clientId !in store.conversations
    requires fresh1 != clientId && fresh2 != clientId && fresh1 != fresh2
    requires completion1.Completed? && completion2.Completed?
    modifies store
    ensures first == second == [PromptMessage(UserRole, text), PromptMessage(UserRole, text)]
    ensures clientId !in store.conversations
    ensures store.Valid()
    ensures fresh1 in store.conversations && fresh2 in store.conversations
    ensures fresh1 in store.messages && fresh2 in store.messages
    ensures |store.messages[fresh1]| == 2 && |store.messages[fresh2]| == 2
  {
    first := UnknownIdTurn(store, clientId, text, fresh1, now, completion1);
    ghost var messages1 := store.messages;
    second := UnknownIdTurn(store, clientId, text, fresh2, now, completion2);
    assert fresh1 in store.messages - {fresh2} && fresh1 in messages1 - {fresh2};
  }

  /** One chat turn under an id the store does not know: it opens a conversation under `freshId` and touches no other. */
  method UnknownIdTurn(store: MemStorage, clientId: string, text: string, freshId: string, now: Time, completion: Completion)
    returns (prompt: seq<PromptMessage>)
    requires store.Valid()
    requires clientId != "" && text != "" && clientId !in store.conversations && freshId != clientId
    requires completion.Completed?
    modifies store
    ensures store.Valid()
    ensures prompt == [PromptMessage(UserRole, text), PromptMessage(UserRole, text)]
    ensures clientId !in store.conversations
    ensures freshId in store.conversations && freshId in store.messages && |store.messages[freshId]| == 2
    ensures store.messages - {freshId} == old(store.messages) - {freshId}
  {
    var reply;
    reply, prompt := Chat(store, ChatRequest(Some(clientId), Some(text)), freshId, now, completion);
  }
}
