/** Types and small helpers shared by the server and client modules. */
module Shared {

  datatype Option<+T> = None | Some(value: T)

  datatype Result<+T, +E> = Success(value: T) | Failure(error: E)

  /** A point in time, in milliseconds; stands for the ISO-8601 stamps the program writes. */
  type Time = int

  /** Who wrote a message: the person chatting or the assistant. */
  datatype Sender = User | Ai

  /** The role of one entry of a completion request. */
  datatype Role = SystemRole | UserRole | AssistantRole

  datatype PromptMessage = PromptMessage(role: Role, content: string)

  /** What a chat-completion request gives back: it threw, or it returned the first choice's content (possibly missing). */
  datatype Completion = Threw | Completed(content: Option<string>)

  datatype Emotion = Emotion(name: string, value: int, color: string)
  datatype KeyInsight = KeyInsight(title: string, content: string)

  /** The structured insights payload; the core passes it along without looking inside. */
  datatype Insights = Insights(emotions: seq<Emotion>, keyInsights: seq<KeyInsight>, reflectionQuestions: seq<string>)

  /** The title every new conversation starts with. */
  const NewConversationTitle: string := "New conversation"

  /** A possibly-missing string is truthy in JavaScript when it is present and not empty. */
  predicate Truthy(s: Option<string>)
  {
    s.Some? && s.value != ""
  }

  /** JavaScript's `s || fallback` on a possibly-missing string. */
  function OrElse(s: Option<string>, fallback: string): (r: string)
    ensures Truthy(s) ==> r == s.value && r != ""
    ensures !Truthy(s) ==> r == fallback
  {
    if Truthy(s) then s.value else fallback
  }

  /** The completion role a stored message is sent under: anything not from the user is the assistant's. */
  function RoleOf(sender: Sender): (r: Role)
    ensures r != SystemRole
    ensures r == UserRole <==> sender.User?
    ensures r == AssistantRole <==> sender.Ai?
  {
    if sender.User? then UserRole else AssistantRole
  }
}
