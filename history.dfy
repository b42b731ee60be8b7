/**
 * Conversation history: the message records kept per session, the list object
 * that holds them, and the "role: content" rendering that the routing,
 * knowledge-base and web-search agents put into their prompts.
 */
module History {
  import opened Wrappers
  import opened Text

  /** One entry of a `conversation_history` list: a dict whose "role" and "content" keys may be missing. */
  datatype Message = Message(role: Option<string>, content: Option<string>)

  /** The `{"role": role, "content": content}` dict the system itself stores. */
  function Turn(role: string, content: string): Message {
    Message(Some(role), Some(content))
  }

  /**
   * A `conversation_history` list object. The session stores hand out
   * references to it, and callers append through those references.
   */
  class MessageList {
    var items: seq<Message>

    constructor (items: seq<Message>)
      ensures this.items == items
    {
      this.items := items;
    }

    /** `list.append(m)` */
    method Append(m: Message)
      modifies this
      ensures items == old(items) + [m]
    {
      items := items + [m];
    }
  }

  /** `f"{role}: {content}\n"`, reading a missing key as "". */
  function RoleLine(m: Message): string {
    m.role.GetOr("") + ": " + m.content.GetOr("") + "\n"
  }

  /** The lines of `ms`, one per message, in order. */
  function RoleLines(ms: seq<Message>): string {
    if ms == [] then "" else RoleLines(ms[..|ms| - 1]) + RoleLine(ms[|ms| - 1])
  }

  /** Rendering a concatenation renders each part in turn. */
  lemma {:induction false} RoleLinesAppend(a: seq<Message>, b: seq<Message>)
    ensures RoleLines(a + b) == RoleLines(a) + RoleLines(b)
  {
    if b != [] {
      assert (a + b)[..|a + b| - 1] == a + b[..|b| - 1];
      RoleLinesAppend(a, b[..|b| - 1]);
    } else {
      assert a + b == a;
    }
  }

  /** The placeholder put into a prompt when there is no history to show. */
  const NoHistory := "无"

  /**
   * The history text of a prompt: the last `window` messages rendered one per
   * line, or "无" when nothing was rendered.
   */
  function PromptHistory(history: seq<Message>, window: nat): string {
    var text := RoleLines(Last(history, window));
    if text == "" then NoHistory else text
  }

  /** The placeholder appears exactly when the history is empty. */
  lemma PlaceholderIffEmpty(history: seq<Message>, window: nat)
    requires window > 0
    ensures PromptHistory(history, window) == NoHistory <==> history == []
  {
    var recent := Last(history, window);
    if history != [] {
      var text := RoleLines(recent);
      var line := RoleLine(recent[|recent| - 1]);
      assert text == RoleLines(recent[..|recent| - 1]) + line;
      assert text[|text| - 1] == line[|line| - 1] == '\n';
    }
  }

  /** Messages older than the last `window` never reach the prompt. */
  lemma OlderMessagesIgnored(older: seq<Message>, history: seq<Message>, window: nat)
    requires 0 < window <= |history|
    ensures PromptHistory(older + history, window) == PromptHistory(history, window)
  {
    LastOfAppend(older, history, window);
  }

  /**
   * The loop `for msg in conversation_history[-window:]: history_text += ...`,
   * guarded by `if conversation_history:`.
   */
  method RenderRecent(history: seq<Message>, window: nat) returns (text: string)
    ensures text == RoleLines(Last(history, window))
  {
    text := "";
    if history != [] {
      var recent := Last(history, window);
      var i := 0;
      while i < |recent|
        invariant 0 <= i <= |recent|
        invariant text == RoleLines(recent[..i])
      {
        assert recent[..i + 1][..i] == recent[..i];
        text := text + RoleLine(recent[i]);
        i := i + 1;
      }
      assert recent[..|recent|] == recent;
    }
  }
}
