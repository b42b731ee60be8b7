/**
 * The conversational agent: renders the user and assistant turns of the recent
 * history and asks the language model for a reply.
 */
module ConversationAgent {
  import opened Wrappers
  import opened Text
  import opened History
  import opened Replies

  const AgentName := "医疗对话智能体"
  const Apology := "抱歉,处理您的请求时出现错误。请稍后重试。"
  /** The history text when no turn was rendered. */
  const FirstTurn := "这是对话的开始"
  /** `ConversationConfig.context_limit` */
  const ContextLimit := 20

  /** The language model behind the conversation prompt: (query, history text) to answer or exception. */
  type ConversationModel = (string, string) -> Result<string>

  /** A message whose role is "user" or "assistant"; only these are rendered. */
  predicate IsSpeaker(m: Message) {
    m.role.GetOr("") == "user" || m.role.GetOr("") == "assistant"
  }

  function SpeakerLine(m: Message): string {
    var role := m.role.GetOr("");
    var content := m.content.GetOr("");
    if role == "user" then "用户: " + content + "\n"
    else if role == "assistant" then "医疗助手: " + content + "\n"
    else ""
  }

  function SpeakerLines(ms: seq<Message>): string {
    if ms == [] then "" else SpeakerLines(ms[..|ms| - 1]) + SpeakerLine(ms[|ms| - 1])
  }

  /** Nothing is rendered exactly when no message is a user or assistant turn. */
  lemma {:induction false} SpeakerLinesEmpty(ms: seq<Message>)
    ensures SpeakerLines(ms) == "" <==> forall k | 0 <= k < |ms| :: !IsSpeaker(ms[k])
  {
    if ms != [] {
      var init := ms[..|ms| - 1];
      SpeakerLinesEmpty(init);
      assert forall k | 0 <= k < |init| :: init[k] == ms[k];
      if IsSpeaker(ms[|ms| - 1]) {
        assert |SpeakerLine(ms[|ms| - 1])| > 0;
      }
    }
  }

  /** The history text of the conversation prompt. */
  function ConversationHistory(history: seq<Message>): string {
    var text := SpeakerLines(Last(history, ContextLimit));
    if text == "" then FirstTurn else text
  }

  /** The opening placeholder is used exactly when none of the last 20 messages is a user or assistant turn. */
  lemma OpeningIffNoSpeaker(history: seq<Message>)
    ensures ConversationHistory(history) == FirstTurn <==>
      forall k | 0 <= k < |Last(history, ContextLimit)| :: !IsSpeaker(Last(history, ContextLimit)[k])
  {
    var recent := Last(history, ContextLimit);
    SpeakerLinesEmpty(recent);
    var text := SpeakerLines(recent);
    if text != "" {
      var last := SpeakerLine(recent[|recent| - 1]);
      assert text == SpeakerLines(recent[..|recent| - 1]) + last;
      if last == "" {
        SpeakerLinesNewline(recent[..|recent| - 1]);
      }
      assert text[|text| - 1] == '\n';
    }
  }

  /** A non-empty rendering ends with a newline. */
  lemma {:induction false} SpeakerLinesNewline(ms: seq<Message>)
    requires SpeakerLines(ms) != ""
    ensures SpeakerLines(ms)[|SpeakerLines(ms)| - 1] == '\n'
  {
    var last := SpeakerLine(ms[|ms| - 1]);
    if last == "" {
      SpeakerLinesNewline(ms[..|ms| - 1]);
    }
  }

  /** The reply dict for a model call's outcome: the answer, or the fixed apology. */
  function ChatReply(outcome: Result<string>): (r: Reply)
    ensures r.agent == AgentName && r.sources.None? && r.confidence.None?
    ensures outcome.Failure? ==> r.response == Apology
    ensures outcome.Success? ==> r.response == outcome.value
  {
    match outcome
    case Success(answer) => Reply(AgentName, answer, None, None, None)
    case Failure(_) => Reply(AgentName, Apology, None, None, None)
  }

  /** The loop that renders the last `ContextLimit` messages. */
  method RenderConversation(history: seq<Message>) returns (text: string)
    ensures text == SpeakerLines(Last(history, ContextLimit))
  {
    text := "";
    if history != [] {
      var recent := Last(history, ContextLimit);
      var i := 0;
      while i < |recent|
        invariant 0 <= i <= |recent|
        invariant text == SpeakerLines(recent[..i])
      {
        assert recent[..i + 1][..i] == recent[..i];
        assert SpeakerLines(recent[..i + 1]) == SpeakerLines(recent[..i]) + SpeakerLine(recent[i]);
        var role := recent[i].role.GetOr("");
        var content := recent[i].content.GetOr("");
        var line := "";
        if role == "user" {
          line := "用户: " + content + "\n";
        } else if role == "assistant" {
          line := "医疗助手: " + content + "\n";
        }
        assert line == SpeakerLine(recent[i]);
        text := text + line;
        i := i + 1;
      }
      assert recent[..|recent|] == recent;
    }
  }

  /** `ConversationAgent.chat` */
  method Chat(query: string, history: seq<Message>, model: ConversationModel) returns (r: Reply)
    ensures r.agent == AgentName
    ensures r == ChatReply(model(query, ConversationHistory(history)))
  {
    var historyText := RenderConversation(history);
    var outcome := model(query, if historyText == "" then FirstTurn else historyText);
    r := ChatReply(outcome);
  }
}
