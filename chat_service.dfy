/**
 * `ChatService.generateResponse`: build the completion request from a conversation's history,
 * ask for a reply, and decide from the message count and the current fields whether a title,
 * a summary and insights are asked for too. The completion calls are parameters (`Oracles`):
 * each is a function of the request it is given.
 */
module ChatService {
  import opened Shared
  import opened Storage

  /** The persona instructions that open every request (only their opening sentence is kept here). */
  const SystemPrompt: string := "You are an AI Dating Therapist specializing in emotional support for relationship challenges."

  const SystemMessage: PromptMessage := PromptMessage(SystemRole, SystemPrompt)

  /** The completion collaborators: the reply, and the title, summary and insights generators. */
  datatype Oracles = Oracles(
    chat: seq<PromptMessage> -> Completion,
    title: seq<PromptMessage> -> Option<string>,
    summary: seq<PromptMessage> -> Option<string>,
    insights: seq<PromptMessage> -> Option<Insights>)

  /** The collaborator calls one `generateResponse` makes, in order. */
  datatype Call = ChatCall | TitleCall | SummaryCall | InsightsCall

  datatype Generated = Generated(reply: Option<string>, title: string, summary: string, insights: Option<Insights>)

  datatype ServiceError = ChatCompletionFailed

  /** The request for a history: the system message, then each message under its role, in order. */
  function Prompt(history: seq<Message>): (p: seq<PromptMessage>)
    ensures |p| == |history| + 1
    ensures p[0] == SystemMessage
    ensures forall i | 1 <= i < |p| :: p[i].role != SystemRole
    ensures forall i | 0 <= i < |history| ::
      && p[i + 1].content == history[i].content
      && (p[i + 1].role == UserRole <==> history[i].sender == User)
  {
    [SystemMessage] + seq(|history|, i requires 0 <= i < |history| => PromptMessage(RoleOf(history[i].sender), history[i].content))
  }

  /** The request-building loop of `generateResponse`. */
  method BuildPrompt(history: seq<Message>) returns (prompt: seq<PromptMessage>)
    ensures prompt == Prompt(history)
  {
    prompt := [SystemMessage];
    var i := 0;
    while i < |history|
      invariant 0 <= i <= |history|
      invariant prompt == Prompt(history[..i])
    {
      var message := history[i];
      PromptStep(history, i);
      prompt := prompt + [PromptMessage(RoleOf(message.sender), message.content)];
      i := i + 1;
    }
    assert history[..i] == history;
  }

  /** The request for one more message of the history extends the request for the messages before it. */
  lemma PromptStep(history: seq<Message>, i: nat)
    requires i < |history|
    ensures Prompt(history[..i + 1]) == Prompt(history[..i]) + [PromptMessage(RoleOf(history[i].sender), history[i].content)]
  {
    assert history[..i + 1] == history[..i] + [history[i]];
    PromptAppend(history[..i], history[i]);
  }

  lemma PromptAppend(history: seq<Message>, m: Message)
    ensures Prompt(history + [m]) == Prompt(history) + [PromptMessage(RoleOf(m.sender), m.content)]
  {
    var longer := history + [m];
    assert forall k | 0 <= k < |history| :: longer[k] == history[k];
  }

  predicate TitleWanted(count: nat, title: string)
  {
    count >= 2 && (title == "" || title == NewConversationTitle)
  }

  predicate SummaryWanted(count: nat, summary: string)
  {
    count >= 2 && summary == ""
  }

  predicate InsightsWanted(count: nat)
  {
    count >= 4
  }

  /** The title `generateResponse` returns, given what the title generator would produce. */
  function NextTitle(count: nat, title: string, generated: Option<string>): (t: string)
    ensures count >= 2 ==> t != ""
    ensures count < 2 ==> t == title
    ensures title != "" && title != NewConversationTitle ==> t == title
    ensures t != title ==> t == NewConversationTitle || (Truthy(generated) && t == generated.value)
    ensures TitleWanted(count, title) && Truthy(generated) ==> t == generated.value
  {
    if TitleWanted(count, title) then OrElse(generated, NewConversationTitle) else title
  }

  /** The summary `generateResponse` returns, given what the summary generator would produce. */
  function NextSummary(count: nat, summary: string, generated: Option<string>): (s: string)
    ensures count < 2 || summary != "" ==> s == summary
    ensures s != summary ==> Truthy(generated) && s == generated.value
    ensures SummaryWanted(count, summary) && Truthy(generated) ==> s == generated.value
  {
    if SummaryWanted(count, summary) then OrElse(generated, "") else summary
  }

  /** The insights `generateResponse` returns: none before four messages. */
  function NextInsights(count: nat, generated: Option<Insights>): (ins: Option<Insights>)
    ensures count < 4 ==> ins.None?
    ensures count >= 4 ==> ins == generated
  {
    if InsightsWanted(count) then generated else None
  }

  /** The calls made once the reply has come back. */
  function Calls(count: nat, title: string, summary: string): (cs: seq<Call>)
  {
    [ChatCall]
      + (if TitleWanted(count, title) then [TitleCall] else [])
      + (if SummaryWanted(count, summary) then [SummaryCall] else [])
      + (if InsightsWanted(count) then [InsightsCall] else [])
  }

  /** Fewer than two messages: only the reply is asked for. */
  lemma ShortConversationAsksOnlyForReply(count: nat, title: string, summary: string)
    requires count < 2
    ensures Calls(count, title, summary) == [ChatCall]
  {
  }

  /** A fresh conversation with two or three messages asks for a title and a summary but no insights. */
  lemma SecondMessageAsksForTitleAndSummary(count: nat)
    requires 2 <= count < 4
    ensures Calls(count, NewConversationTitle, "") == [ChatCall, TitleCall, SummaryCall]
  {
  }

  /** From four messages on, insights are always asked for, and last. */
  lemma FourthMessageAsksForInsights(count: nat, title: string, summary: string)
    requires count >= 4
    ensures InsightsCall in Calls(count, title, summary)
    ensures Calls(count, title, summary)[|Calls(count, title, summary)| - 1] == InsightsCall
  {
  }

  /** `generateResponse`. A throwing reply call aborts it before any other call is made. */
  method GenerateResponse(conversation: Conversation, oracles: Oracles) returns (r: Result<Generated, ServiceError>, calls: seq<Call>)
    ensures var prompt := Prompt(conversation.messages);
      oracles.chat(prompt).Threw? ==> r == Failure(ChatCompletionFailed) && calls == [ChatCall]
    ensures var prompt := Prompt(conversation.messages);
      var n := |conversation.messages|;
      oracles.chat(prompt).Completed? ==>
        && r == Success(Generated(
            oracles.chat(prompt).content,
            NextTitle(n, conversation.title, oracles.title(prompt)),
            NextSummary(n, conversation.summary, oracles.summary(prompt)),
            NextInsights(n, oracles.insights(prompt))))
        && calls == Calls(n, conversation.title, conversation.summary)
  {
    var prompt := BuildPrompt(conversation.messages);
    calls := [ChatCall];
    var completion := oracles.chat(prompt);
    if completion.Threw? {
      return Failure(ChatCompletionFailed), calls;
    }
    var reply := completion.content;
    var n := |conversation.messages|;

    var title := conversation.title;
    var summary := conversation.summary;
    var insights: Option<Insights> := None;

    if n >= 2 && (title == "" || title == NewConversationTitle) {
      calls := calls + [TitleCall];
      title := OrElse(oracles.title(prompt), NewConversationTitle);
    }
    if n >= 2 && summary == "" {
      calls := calls + [SummaryCall];
      summary := OrElse(oracles.summary(prompt), "");
    }
    if n >= 4 {
      calls := calls + [InsightsCall];
      insights := oracles.insights(prompt);
    }
    r := Success(Generated(reply, title, summary, insights));
  }
}
