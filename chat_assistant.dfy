/**
 * The chat assistant's transcript: a greeting, then user messages and the simulated replies
 * that arrive one second after each send. A pending reply is a queued continuation that
 * `DeliverReply` runs; it remembers the input that was sent.
 */
module ChatAssistant {
  import Text

  datatype Role = User | Assistant

  datatype Citation = Citation(chunkId: string, page: nat, excerpt: string)

  /** A transcript entry; the timestamp-based ids are not modelled. */
  datatype Message = Message(role: Role, content: string, citations: seq<Citation>)

  const GreetingText: string :=
    "Hi! I'm your regulatory intelligence assistant. Ask me anything about the documents you've uploaded."

  const Greeting: Message := Message(Assistant, GreetingText, [])

  const ExamplePrompts: seq<string> := [
    "Summarize the impact",
    "What are the requirements?",
    "Which sectors are affected?",
    "Timeline for compliance"]

  const ImpactAnswer: string := "the regulatory changes would have significant impact on your portfolio."
  const GenericAnswer: string := "I can provide detailed insights on this matter. The evidence suggests..."

  /** The simulated answer to a sent input. */
  function ReplyText(sent: string): (reply: string)
    ensures Text.Contains(Text.Lower(sent), "impact") ==> reply == "Based on the documents, " + ImpactAnswer
    ensures !Text.Contains(Text.Lower(sent), "impact") ==> reply == "Based on the documents, " + GenericAnswer
  {
    "Based on the documents, " + (if Text.Contains(Text.Lower(sent), "impact") then ImpactAnswer else GenericAnswer)
  }

  function Reply(sent: string): Message {
    Message(Assistant, ReplyText(sent), [Citation("chunk-1", 2, "Key regulatory requirement...")])
  }

  /** The contents of the user messages, in order. */
  function UserContents(ms: seq<Message>): seq<string> {
    if ms == [] then []
    else UserContents(ms[..|ms| - 1]) + (if ms[|ms| - 1].role == User then [ms[|ms| - 1].content] else [])
  }

  /** The contents of the assistant messages, in order. */
  function AssistantContents(ms: seq<Message>): seq<string> {
    if ms == [] then []
    else AssistantContents(ms[..|ms| - 1]) + (if ms[|ms| - 1].role == Assistant then [ms[|ms| - 1].content] else [])
  }

  lemma AppendOne(ms: seq<Message>, m: Message)
    ensures UserContents(ms + [m]) == UserContents(ms) + (if m.role == User then [m.content] else [])
    ensures AssistantContents(ms + [m]) == AssistantContents(ms) + (if m.role == Assistant then [m.content] else [])
  {
    assert (ms + [m])[..|ms|] == ms;
  }

  /** The replies so far answer the earliest user messages, in order; the rest wait in `pending`. */
  ghost predicate Answered(messages: seq<Message>, pending: seq<string>) {
    && |messages| >= 1 && messages[0] == Greeting
    && var users := UserContents(messages[1..]);
       var replies := AssistantContents(messages[1..]);
       && |users| == |replies| + |pending|
       && users == users[..|replies|] + pending
       && forall i :: 0 <= i < |replies| ==> replies[i] == ReplyText(users[i])
  }

  lemma SendKeepsAnswered(messages: seq<Message>, pending: seq<string>, sent: string)
    requires Answered(messages, pending)
    ensures Answered(messages + [Message(User, sent, [])], pending + [sent])
  {
    var m := Message(User, sent, []);
    AppendOne(messages[1..], m);
    assert (messages + [m])[1..] == messages[1..] + [m];
    var users := UserContents(messages[1..]);
    var replies := AssistantContents(messages[1..]);
    assert (users + [sent])[..|replies|] == users[..|replies|];
  }

  lemma ReplyKeepsAnswered(messages: seq<Message>, pending: seq<string>)
    requires Answered(messages, pending) && pending != []
    ensures Answered(messages + [Reply(pending[0])], pending[1..])
  {
    var reply := Reply(pending[0]);
    var users := UserContents(messages[1..]);
    var replies := AssistantContents(messages[1..]);
    AppendOne(messages[1..], reply);
    assert (messages + [reply])[1..] == messages[1..] + [reply];
    assert users[|replies|] == pending[0];
    assert users[..|replies| + 1] + pending[1..] == users;
  }

  /** Quick prompts are offered only while the transcript holds the greeting alone. */
  predicate QuickPromptsVisible(messages: seq<Message>) {
    |messages| == 1
  }

  /** The send button's `disabled`. */
  predicate SendDisabled(input: string, loading: bool) {
    Text.IsBlank(input) || loading
  }

  /** The button is disabled exactly while a reply is awaited or the input is all whitespace. */
  lemma SendDisabledIff(input: string, loading: bool)
    ensures SendDisabled(input, loading) <==>
      loading || forall i :: 0 <= i < |input| ==> Text.IsJsWhitespace(input[i])
  {
    Text.BlankIffAllWhitespace(input);
  }

  class Chat {
    var messages: seq<Message>
    var input: string
    var loading: bool
    /** The inputs whose replies have not arrived yet, oldest first. */
    var pending: seq<string>

    ghost predicate Valid()
      reads this
    {
      Answered(messages, pending)
    }

    constructor ()
      ensures Valid()
      ensures messages == [Greeting] && input == "" && !loading && pending == []
    {
      messages := [Greeting];
      input := "";
      loading := false;
      pending := [];
    }

    /** Typing in the input box. */
    method SetInput(value: string)
      modifies this
      ensures input == value
      ensures messages == old(messages) && loading == old(loading) && pending == old(pending)
    {
      input := value;
    }

    /** A quick prompt fills the input without sending it. */
    method PickQuickPrompt(i: nat)
      requires i < |ExamplePrompts|
      modifies this
      ensures input == ExamplePrompts[i]
      ensures messages == old(messages) && loading == old(loading) && pending == old(pending)
    {
      input := ExamplePrompts[i];
    }

    /**
     * `handleSendMessage`, reached through `ClickSend` and `KeyDown` (Enter ignores `loading`):
     * blank input does nothing; otherwise the raw input is appended as a user message, the input cleared,
     * loading set and a reply scheduled.
     */
    method SendMessage()
      requires Valid()
      modifies this
      ensures Valid()
      ensures Text.IsBlank(old(input)) ==>
        messages == old(messages) && input == old(input) && loading == old(loading) && pending == old(pending)
      ensures !Text.IsBlank(old(input)) ==>
        && messages == old(messages) + [Message(User, old(input), [])]
        && input == "" && loading
        && pending == old(pending) + [old(input)]
    {
      if Text.IsBlank(input) {
        return;
      }
      var userMessage := Message(User, input, []);
      SendKeepsAnswered(messages, pending, input);
      pending := pending + [input];
      messages := messages + [userMessage];
      input := "";
      loading := true;
    }

    /**
     * A click on the send button: a disabled button does nothing; an enabled one sends, and
     * the button is then disabled until the reply arrives.
     */
    method ClickSend()
      requires Valid()
      modifies this
      ensures Valid()
      ensures SendDisabled(old(input), old(loading)) ==>
        messages == old(messages) && input == old(input) && loading == old(loading) && pending == old(pending)
      ensures !SendDisabled(old(input), old(loading)) ==>
        && messages == old(messages) + [Message(User, old(input), [])]
        && input == "" && loading
        && pending == old(pending) + [old(input)]
      ensures !SendDisabled(old(input), old(loading)) ==> SendDisabled(input, loading)
    {
      if SendDisabled(input, loading) {
        return;
      }
      SendMessage();
    }

    /** A key press in the input box: Enter sends, whether or not a reply is awaited. */
    method KeyDown(key: string)
      requires Valid()
      modifies this
      ensures Valid()
      ensures key != "Enter" ==>
        messages == old(messages) && input == old(input) && loading == old(loading) && pending == old(pending)
      ensures key == "Enter" && Text.IsBlank(old(input)) ==>
        messages == old(messages) && input == old(input) && loading == old(loading) && pending == old(pending)
      ensures key == "Enter" && !Text.IsBlank(old(input)) ==>
        && messages == old(messages) + [Message(User, old(input), [])]
        && input == "" && loading
        && pending == old(pending) + [old(input)]
    {
      if key == "Enter" {
        SendMessage();
      }
    }

    /** The oldest scheduled reply arrives: one assistant message is appended and loading cleared. */
    method DeliverReply()
      requires Valid() && pending != []
      modifies this
      ensures Valid()
      ensures messages == old(messages) + [Reply(old(pending)[0])]
      ensures pending == old(pending)[1..] && !loading && input == old(input)
    {
      var reply := Reply(pending[0]);
      ReplyKeepsAnswered(messages, pending);
      messages := messages + [reply];
      pending := pending[1..];
      loading := false;
    }
  }

  /** Sending is only ever an append: the transcript never shrinks, so quick prompts never come back. */
  lemma QuickPromptsGoneAfterSend(before: seq<Message>, after: seq<Message>)
    requires |before| >= 1 && |after| > |before| && after[..|before|] == before
    ensures !QuickPromptsVisible(after)
  {
  }

  /** The reply mentions the portfolio impact exactly when the question says "impact" in any case. */
  lemma ImpactQuestionGetsImpactAnswer(prefix: string, suffix: string)
    ensures ReplyText(prefix + "IMPACT" + suffix) == "Based on the documents, " + ImpactAnswer
  {
    var sent := prefix + "IMPACT" + suffix;
    var lowered := Text.Lower(sent);
    assert lowered[|prefix|..|prefix| + 6] == "impact" by {
      forall k | 0 <= k < 6 ensures lowered[|prefix| + k] == "impact"[k] {
        assert sent[|prefix| + k] == "IMPACT"[k];
      }
    }
    assert Text.OccursAt(lowered, "impact", |prefix|);
  }
}
