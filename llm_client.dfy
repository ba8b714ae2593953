/** The chat-completion client: an append-only message history and a system
    prompt, the builder of the message list sent to the model (system message
    plus the most recent messages), the response call's effect on the
    history, and the two prompt builders. The completion service itself is a
    parameter: a function from the messages sent to the text it answers, or
    `None` when the call (or reading its answer) raises. */
module LlmClient {
  import opened Outcomes
  import opened Strings
  import opened PyList
  import opened Config

  const SYSTEM: string := "system"
  const USER: string := "user"
  const ASSISTANT: string := "assistant"

  /** The default `max_messages` of the context builder. */
  const DEFAULT_MAX_MESSAGES: int := 10

  /** The persona prompt lists at most this many key areas. */
  const PERSONA_KEY_AREAS: nat := 6
  /** The follow-up prompt lists at most this many key areas. */
  const FOLLOW_UP_KEY_AREAS: nat := 8

  /** The question asked when the follow-up call fails. */
  const FOLLOW_UP_FALLBACK: string :=
    "That's interesting! Can you tell me more about what you think influences this the most?"

  /** One history entry; `timestamp` is never set by the client. */
  datatype ConversationMessage = ConversationMessage(role: string, content: string, timestamp: Option<real> := None)

  /** One `{"role": .., "content": ..}` dict of the request. */
  datatype ApiMessage = ApiMessage(role: string, content: string)

  /** A completion service: the request's messages to the stripped-or-not
      answer text, `None` when the call raises. */
  type Completion = seq<ApiMessage> -> Option<string>

  /** The request form of history entries, in order. */
  function AsApi(ms: seq<ConversationMessage>): (r: seq<ApiMessage>)
    ensures |r| == |ms|
    ensures forall i :: 0 <= i < |ms| ==> r[i] == ApiMessage(ms[i].role, ms[i].content)
  {
    if ms == [] then []
    else AsApi(ms[..|ms| - 1]) + [ApiMessage(ms[|ms| - 1].role, ms[|ms| - 1].content)]
  }

  /** Converting one more message of a prefix appends its request form,
      after whatever `head` precedes the converted prefix. */
  lemma AsApiPrefix(head: seq<ApiMessage>, ms: seq<ConversationMessage>, i: nat)
    requires i < |ms|
    ensures head + AsApi(ms[..i + 1]) == head + AsApi(ms[..i]) + [ApiMessage(ms[i].role, ms[i].content)]
  {
    assert ms[..i + 1][..i] == ms[..i];
  }

  /** What `get_conversation_context` builds: the system message when the
      prompt is non-empty, then the recent history window. */
  function ContextWindow(prompt: string, history: seq<ConversationMessage>, maxMessages: int): seq<ApiMessage> {
    (if prompt != "" then [ApiMessage(SYSTEM, prompt)] else []) + AsApi(RecentWindow(history, maxMessages))
  }

  /** The system message leads exactly when the prompt is non-empty, and the
      rest is the recent history window. */
  lemma ContextSystemMessage(prompt: string, history: seq<ConversationMessage>, maxMessages: int)
    ensures var r := ContextWindow(prompt, history, maxMessages);
      var recent := RecentWindow(history, maxMessages);
      && (prompt != "" ==> |r| == |recent| + 1 && r[0] == ApiMessage(SYSTEM, prompt) && r[1..] == AsApi(recent))
      && (prompt == "" ==> r == AsApi(recent))
  {
  }

  /** With a positive bound, what follows the system message is the last
      `min(maxMessages, len)` messages, oldest first. */
  lemma ContextLatestMessages(prompt: string, history: seq<ConversationMessage>, maxMessages: int)
    requires maxMessages >= 1
    ensures var r := ContextWindow(prompt, history, maxMessages);
      var k := if |history| < maxMessages then |history| else maxMessages;
      var offset := if prompt != "" then 1 else 0;
      |r| == offset + k && r[offset..] == AsApi(history[|history| - k..])
  {
    RecentWindowPositive(history, maxMessages);
    var recent := RecentWindow(history, maxMessages);
    var head: seq<ApiMessage> := if prompt != "" then [ApiMessage(SYSTEM, prompt)] else [];
    assert recent == history[|history| - |recent|..];
    assert (head + AsApi(recent))[|head|..] == AsApi(recent);
  }

  /** A zero bound sends the whole history, because `history[-0:]` is all
      of it. */
  lemma ContextZeroSendsAll(prompt: string, history: seq<ConversationMessage>)
    ensures var r := ContextWindow(prompt, history, 0);
      var offset := if prompt != "" then 1 else 0;
      |r| == offset + |history| && r[offset..] == AsApi(history)
  {
    RecentWindowZero(history);
  }

  /** `f"- {kw.term}: {kw.description}"`. */
  function KeyAreaLine(kw: Keyword): string {
    "- " + kw.term + ": " + kw.description
  }

  /** The key-area lines of `keywords[:cap]`: one per keyword, for the first
      `min(cap, len)` keywords in order. */
  function KeyAreas(keywords: seq<Keyword>, cap: nat): (r: seq<string>)
    ensures |r| == if |keywords| < cap then |keywords| else cap
    ensures forall i :: 0 <= i < |r| ==> r[i] == KeyAreaLine(keywords[i])
  {
    if cap == 0 || keywords == [] then []
    else [KeyAreaLine(keywords[0])] + KeyAreas(keywords[1..], cap - 1)
  }

  // The fixed text of the persona prompt, around the topic's fields.
  const PERSONA_OPENING: string :=
    "\n        You are an enthusiastic and knowledgeable conversation partner who loves discussing "
  const PERSONA_TRAITS: string :=
    ". \n        \n        Your personality traits:\n        - Curious and engaging\n"
    + "        - Knowledgeable but not condescending  \n        - Asks thoughtful follow-up questions\n"
    + "        - Shares interesting insights when appropriate\n"
    + "        - Encourages the user to share their thoughts and experiences\n        \n        Topic focus: "
  const PERSONA_AREAS: string := "\n        \n        Key areas you're interested in discussing:\n        "
  const PERSONA_CLOSING: string :=
    "\n        \n        Your goal is to have a natural, engaging conversation while gently guiding the discussion"
    + " to cover these key areas. You should respond conversationally and show genuine interest in what the user"
    + " says.\n        \n        Always:\n        - Keep responses under 100 words\n"
    + "        - Ask one follow-up question per response\n"
    + "        - Acknowledge what the user said before asking more\n        - Be encouraging and positive\n        "

  /** `create_roleplay_persona`: the system prompt for a topic, listing its
      first six key areas. */
  function PersonaPrompt(topic: Topic): string {
    PersonaHead(topic) + Join("\n", KeyAreas(topic.keywords, PERSONA_KEY_AREAS)) + PERSONA_CLOSING
  }

  /** The persona prompt up to its key-area lines. */
  function PersonaHead(topic: Topic): string {
    PERSONA_OPENING + topic.name + PERSONA_TRAITS + topic.description + PERSONA_AREAS
  }

  // The fixed text of the follow-up prompt, around the topic, the user's
  // words and the score.
  const FOLLOW_UP_OPENING: string := "\n        You are having a conversation about "
  const FOLLOW_UP_QUOTE: string := ". The user just said: \""
  const FOLLOW_UP_SCORE: string := "\"\n        \n        Current conversation score based on keyword coverage: "
  const FOLLOW_UP_AREAS: string := "/100\n        \n        Key areas that should be covered in this topic:\n        "
  const FOLLOW_UP_CLOSING: string :=
    "\n        \n        Generate a natural follow-up question that:\n        1. Acknowledges what the user said\n"
    + "        2. Encourages them to elaborate on areas they haven't fully covered\n"
    + "        3. Sounds conversational and engaging\n"
    + "        4. Helps guide them toward the key concepts if they're missing them\n        \n"
    + "        Keep it under 50 words and make it sound like a curious friend asking for more details.\n        "

  /** The prompt of `generate_follow_up_question`, with the score already
      rendered as `scoreText`; it lists the first eight key areas. */
  function FollowUpPrompt(topic: Topic, userResponse: string, scoreText: string): string {
    FollowUpHead(topic, userResponse, scoreText) + Join("\n", KeyAreas(topic.keywords, FOLLOW_UP_KEY_AREAS))
    + FOLLOW_UP_CLOSING
  }

  /** The follow-up prompt up to its key-area lines. */
  function FollowUpHead(topic: Topic, userResponse: string, scoreText: string): string {
    FOLLOW_UP_OPENING + topic.name + FOLLOW_UP_QUOTE + userResponse + FOLLOW_UP_SCORE + scoreText + FOLLOW_UP_AREAS
  }

  /** The persona prompt names each of the topic's first six key areas. */
  lemma PersonaListsKeyAreas(topic: Topic, i: nat)
    requires i < |topic.keywords| && i < PERSONA_KEY_AREAS
    ensures Contains(PersonaPrompt(topic), KeyAreaLine(topic.keywords[i]))
  {
    var areas := KeyAreas(topic.keywords, PERSONA_KEY_AREAS);
    JoinContainsPart("\n", areas, i);
    ContainsInside(PersonaHead(topic), Join("\n", areas), PERSONA_CLOSING, areas[i]);
  }

  /** The follow-up prompt names each of the topic's first eight key areas. */
  lemma FollowUpListsKeyAreas(topic: Topic, userResponse: string, scoreText: string, i: nat)
    requires i < |topic.keywords| && i < FOLLOW_UP_KEY_AREAS
    ensures Contains(FollowUpPrompt(topic, userResponse, scoreText), KeyAreaLine(topic.keywords[i]))
  {
    var areas := KeyAreas(topic.keywords, FOLLOW_UP_KEY_AREAS);
    JoinContainsPart("\n", areas, i);
    ContainsInside(FollowUpHead(topic, userResponse, scoreText), Join("\n", areas), FOLLOW_UP_CLOSING, areas[i]);
  }

  /** `generate_follow_up_question` given what the service answered: the
      stripped answer, or the fixed question when the call raised. */
  function FollowUpQuestion(answer: Option<string>): (r: string)
    ensures answer.None? ==> r == FOLLOW_UP_FALLBACK
    ensures answer.Some? ==> r == Strip(answer.value)
    ensures answer.Some? ==> Contains(answer.value, r) && |r| <= |answer.value|
    ensures answer.Some? && r != [] ==> !IsSpace(r[0]) && !IsSpace(r[|r| - 1])
  {
    match answer
    case None => FOLLOW_UP_FALLBACK
    case Some(text) => Strip(text)
  }

  class LLMClient {
    const model: string
    var conversationHistory: seq<ConversationMessage>
    var systemPrompt: string

    constructor(model: string)
      ensures this.model == model && conversationHistory == [] && systemPrompt == ""
    {
      this.model := model;
      conversationHistory := [];
      systemPrompt := "";
    }

    /** `set_system_prompt`: replaces the prompt, keeps the history. */
    method SetSystemPrompt(prompt: string)
      modifies this
      ensures systemPrompt == prompt
      ensures conversationHistory == old(conversationHistory)
    {
      systemPrompt := prompt;
    }

    /** `add_message`: one message at the end, untimed; earlier ones and the
        prompt unchanged. */
    method AddMessage(role: string, content: string)
      modifies this
      ensures conversationHistory == old(conversationHistory) + [ConversationMessage(role, content)]
      ensures systemPrompt == old(systemPrompt)
    {
      conversationHistory := conversationHistory + [ConversationMessage(role, content)];
    }

    /** `clear_history`: no messages; the prompt stays. */
    method ClearHistory()
      modifies this
      ensures conversationHistory == []
      ensures systemPrompt == old(systemPrompt)
    {
      conversationHistory := [];
    }

    /** `get_conversation_context`: reads the state and builds the request. */
    method GetConversationContext(maxMessages: int) returns (messages: seq<ApiMessage>)
      ensures messages == ContextWindow(systemPrompt, conversationHistory, maxMessages)
    {
      messages := [];
      if systemPrompt != "" {
        messages := messages + [ApiMessage(SYSTEM, systemPrompt)];
      }
      var head := messages;
      var history := conversationHistory;
      var recent: seq<ConversationMessage> :=
        if |history| > maxMessages then SliceFrom(history, -maxMessages) else history;
      assert recent == RecentWindow(history, maxMessages);
      assert head == (if systemPrompt != "" then [ApiMessage(SYSTEM, systemPrompt)] else []);
      var i := 0;
      while i < |recent|
        invariant 0 <= i <= |recent|
        invariant messages == head + AsApi(recent[..i])
      {
        AsApiPrefix(head, recent, i);
        messages := messages + [ApiMessage(recent[i].role, recent[i].content)];
        i := i + 1;
      }
      assert recent[..i] == recent;
    }

    /** `generate_response` with the default ten-message window: the user
        message is recorded before the call; only a successful call records
        the stripped answer, which is also what is returned. */
    method GenerateResponse(userInput: string, complete: Completion) returns (r: Option<string>)
      modifies this
      ensures systemPrompt == old(systemPrompt)
      ensures var sent := old(conversationHistory) + [ConversationMessage(USER, userInput)];
        var answer := complete(ContextWindow(old(systemPrompt), sent, DEFAULT_MAX_MESSAGES));
        && (answer.None? ==> r == None && conversationHistory == sent)
        && (answer.Some? ==>
              && r == Some(Strip(answer.value))
              && conversationHistory == sent + [ConversationMessage(ASSISTANT, Strip(answer.value))])
    {
      AddMessage(USER, userInput);
      var messages := GetConversationContext(DEFAULT_MAX_MESSAGES);
      var answer := complete(messages);
      if answer.None? {
        return None;
      }
      var text := Strip(answer.value);
      AddMessage(ASSISTANT, text);
      r := Some(text);
    }
  }
}
