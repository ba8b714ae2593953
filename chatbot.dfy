/** The role-play chatbot: how a typed topic choice, a yes/no answer and an
    exit request are read, and how one conversation drives the conversation
    manager: the introduction turn, one user turn and at most one follow-up
    question per response, and the end of the session.

    Every clock read, every answer of the language model and every line the
    user types is a parameter; speech, logging and the printed texts are not
    part of this model. */
module Chatbot {
  import opened Outcomes
  import opened Strings
  import opened Clock
  import opened Config
  import opened KeywordAnalyzer
  import CM = ConversationManager
  import LC = LlmClient

  /** How a topic choice is read. */
  datatype TopicChoice = NoTopic | RandomTopic | Numbered(index: nat)

  /** The menu number of the random option, `str(len(TOPICS_CONFIG) + 1)`:
      `RandomOptionNumber` proves it is the decimal form of one past
      `TOPIC_COUNT`, and `Config.CatalogKeys` that `TOPIC_COUNT` is the
      catalog's size. */
  const RANDOM_OPTION: string := "6"

  /** The random test of `get_topic`: the choice names "random" in any
      case, or is exactly the random option's number. */
  predicate PicksRandom(choice: string) {
    Contains(Lower(choice), "random") || choice == RANDOM_OPTION
  }

  /** How `get_topic` reads the choice: an empty choice picks nothing; a choice
      passing the random check picks at random (this is checked first);
      otherwise a choice `int()` reads as k, 1 <= k <= 5, picks the k-th
      catalog topic; anything else nothing. */
  function InterpretTopicChoice(choice: string): (r: TopicChoice)
    ensures choice == "" ==> r == NoTopic
    ensures choice != "" && PicksRandom(choice) ==> r == RandomTopic
    ensures r == RandomTopic ==> choice != "" && PicksRandom(choice)
    ensures r.Numbered? ==> choice != "" && !PicksRandom(choice)
    ensures r.Numbered? ==> ParseInt(choice).Some? && r.index + 1 == ParseInt(choice).value <= TOPIC_COUNT
    ensures r == NoTopic && choice != "" ==>
      ParseInt(choice).None? || ParseInt(choice).value < 1 || ParseInt(choice).value > TOPIC_COUNT
  {
    if choice == "" then NoTopic
    else if PicksRandom(choice) then RandomTopic
    else match ParseInt(choice)
      case Some(k) => if 1 <= k <= TOPIC_COUNT then Numbered(k - 1) else NoTopic
      case None => NoTopic
  }

  /** The random option's number is one past the catalog's last topic. */
  lemma RandomOptionNumber()
    ensures RANDOM_OPTION == Decimal(TOPIC_COUNT + 1)
  {
    assert Decimal(6) == [DigitChar(6)];
  }

  /** The numbers the menu shows select the topics in catalog order. */
  lemma MenuNumberSelects(k: nat)
    requires 1 <= k <= TOPIC_COUNT
    ensures InterpretTopicChoice(Decimal(k)) == Numbered(k - 1)
  {
    var choice := Decimal(k);
    assert choice == [DigitChar(k)];
    ParseDecimal(k);
    assert choice != RANDOM_OPTION by {
      assert choice[0] as int - '0' as int == k;
      assert RANDOM_OPTION[0] as int - '0' as int == 6;
    }
    if Contains(Lower(choice), "random") {
      ContainsNoLonger(Lower(choice), "random");
    }
    assert !PicksRandom(choice);
  }

  /** `int()` reads "06" as 6, but only the exact text "6" is the random
      option, so "06" is no choice at all. */
  lemma LeadingZeroIsNoChoice()
    ensures InterpretTopicChoice("06") == NoTopic
  {
    assert StripRight("06") == "06";
    assert StripLeft("06") == "06";
    assert Strip("06") == "06";
    assert "06"[..1] == "0" && "0"[..0] == [];
    assert DigitsValue("06") == 6;
    LowerNoUpper("06");
    if Contains("06", "random") {
      ContainsNoLonger("06", "random");
    }
    assert AllDigits("06");
    assert ParseInt("06") == Some(6);
    assert "06" != RANDOM_OPTION;
  }

  const AFFIRMATIVE_WORDS: seq<string> := ["y", "yeah", "yep", "sure"]

  /** The answer test of `ask_yes_no`: a non-empty response that contains
      "yes" or is one of the short affirmatives, ignoring case. */
  function IsAffirmative(response: string): (r: bool)
    ensures r ==> response != ""
    ensures Contains(Lower(response), "yes") ==> r
  {
    response != "" && (Contains(Lower(response), "yes") || Lower(response) in AFFIRMATIVE_WORDS)
  }

  /** The answer test ignores case. */
  lemma AffirmativeIgnoresCase(response: string)
    ensures IsAffirmative(Lower(response)) == IsAffirmative(response)
  {
    LowerIdempotent(response);
  }

  /** "yes" counts wherever it stands, even inside another word. */
  lemma AffirmativeBySubstring(pre: string, post: string)
    ensures IsAffirmative(pre + "yes" + post)
  {
    LowerConcat(pre + "yes", post);
    LowerConcat(pre, "yes");
    LowerNoUpper("yes");
    ContainsWindow("yes", 0, 3);
    assert "yes"[0..3] == "yes";
    ContainsInside(Lower(pre), "yes", Lower(post), "yes");
  }

  const EXIT_WORDS: seq<string> := ["quit", "exit", "stop", "end"]

  /** The exit test of the conversation loop: the lower-cased input contains
      one of the exit words anywhere. */
  predicate IsExitRequest(input: string) {
    exists w :: w in EXIT_WORDS && Contains(Lower(input), w)
  }

  /** Any input that holds an exit request is one, whatever surrounds it:
      "See you at the weekend" ends the conversation. */
  lemma ExitRequestInside(pre: string, input: string, post: string)
    requires IsExitRequest(input)
    ensures IsExitRequest(pre + input + post)
  {
    LowerConcat(pre + input, post);
    LowerConcat(pre, input);
    var w :| w in EXIT_WORDS && Contains(Lower(input), w);
    ContainsInside(Lower(pre), Lower(input), Lower(post), w);
  }

  /** "weekend" holds "end". */
  lemma WeekendEndsConversation()
    ensures IsExitRequest("weekend")
  {
    LowerNoUpper("weekend");
    assert "weekend"[4..7] == "end";
    ContainsWindow("weekend", 4, 7);
    assert "end" in EXIT_WORDS;
  }

  /** The clock reads and model answers one `handle_response` call sees: the
      time the user turn is recorded, the time the stop ladder runs, the time
      the follow-up is recorded, the analysis answers for the user turn and
      for the stop ladder, and the follow-up call's answer. */
  datatype Step = Step(userAt: Instant, checkAt: Instant, replyAt: Instant,
                       turnAnalysis: Option<KeywordAnalysis>, checkAnalysis: Option<KeywordAnalysis>,
                       followUp: Option<string>)

  /** The follow-up text `handle_response` records: the generated question,
      or the fixed one when it is empty. */
  function FollowUpText(answer: Option<string>): (r: string)
    ensures r != ""
    ensures answer.None? ==> r == LC.FOLLOW_UP_FALLBACK
    ensures answer.Some? && Strip(answer.value) != "" ==> r == Strip(answer.value)
    ensures answer.Some? && Strip(answer.value) == "" ==> r == LC.FOLLOW_UP_FALLBACK
    ensures r != LC.FOLLOW_UP_FALLBACK ==> answer.Some? && Contains(answer.value, r)
  {
    var question := LC.FollowUpQuestion(answer);
    if question != "" then question else LC.FOLLOW_UP_FALLBACK
  }

  /** `handle_response` on the session it finds: the result and the session
      it leaves. An empty input changes nothing. Otherwise the user turn is
      added; an error there or in the stop ladder propagates; a stop returns
      false; a "continue" records one follow-up turn and returns true. */
  function Respond(session: Option<CM.ConversationSession>, userInput: string, step: Step)
    : (r: (Result<bool>, Option<CM.ConversationSession>))
    ensures userInput == "" ==> r == (Ok(true), session)
    ensures r.0.Err? ==> r.0.error in {NO_ACTIVE_SESSION, NO_RELEVANCE_SCORE, NO_COVERAGE_PERCENTAGE}
    ensures session.None? ==> r.1 == None
  {
    if userInput == "" then (Ok(true), session)
    else
      var (added, afterUser) := CM.AddTurnTo(session, CM.USER, userInput, step.userAt, step.turnAnalysis);
      if added.Err? then (Err(added.error), afterUser)
      else
        var decision := CM.ShouldContinue(afterUser, step.checkAt, step.checkAnalysis);
        if decision.Err? then (Err(decision.error), afterUser)
        else if !decision.value.0 then (Ok(false), afterUser)
        else (Ok(true), CM.AddTurnTo(afterUser, CM.ASSISTANT, FollowUpText(step.followUp), step.replyAt, None).1)
  }

  /** One response keeps the session invariant and only adds turns. */
  lemma RespondKeepsValid(session: Option<CM.ConversationSession>, userInput: string, step: Step)
    requires session.Some? && CM.SessionValid(session.value) && userInput != ""
    ensures var r := Respond(session, userInput, step);
      r.1.Some? && CM.SessionValid(r.1.value) && CM.Extends(session.value, r.1.value)
  {
    var (added, afterUser) := CM.AddTurnTo(session, CM.USER, userInput, step.userAt, step.turnAnalysis);
    CM.AddTurnKeepsValid(session, CM.USER, userInput, step.userAt, step.turnAnalysis);
    CM.AddTurnExtends(session, CM.USER, userInput, step.userAt, step.turnAnalysis);
    var decision := CM.ShouldContinue(afterUser, step.checkAt, step.checkAnalysis);
    if added.Ok? && decision.Ok? && decision.value.0 {
      var follow := FollowUpText(step.followUp);
      CM.AddTurnKeepsValid(afterUser, CM.ASSISTANT, follow, step.replyAt, None);
      CM.AddTurnExtends(afterUser, CM.ASSISTANT, follow, step.replyAt, None);
      assert Respond(session, userInput, step).1 == CM.AddTurnTo(afterUser, CM.ASSISTANT, follow, step.replyAt, None).1;
    }
  }

  /** One response records at most one user turn, and nothing at all unless
      the user turn is recorded first. */
  lemma RespondRecordsUserTurnFirst(session: Option<CM.ConversationSession>, userInput: string, step: Step)
    requires session.Some? && userInput != ""
    ensures var s0 := session.value;
      var r := Respond(session, userInput, step);
      var userTurn := CM.ConversationTurn(step.userAt, CM.USER, userInput, Some(0.0), []);
      && r.1.Some?
      && (r.1 == session || r.1.value.turns[..|s0.turns| + 1] == s0.turns + [userTurn])
      && (CM.UserTurnCount(r.1.value) == CM.UserTurnCount(s0) ==> r.1 == session)
      && CM.UserTurnCount(r.1.value) <= CM.UserTurnCount(s0) + 1
  {
    var s0 := session.value;
    var userTurn := CM.ConversationTurn(step.userAt, CM.USER, userInput, Some(0.0), []);
    var (added, afterUser) := CM.AddTurnTo(session, CM.USER, userInput, step.userAt, step.turnAnalysis);
    if added.Ok? {
      var s1 := CM.Appended(s0, userTurn);
      assert afterUser == Some(s1);
      UserContentsAppendOne(s0, userTurn);
      var decision := CM.ShouldContinue(afterUser, step.checkAt, step.checkAnalysis);
      if decision.Ok? && decision.value.0 {
        var reply := CM.ConversationTurn(step.replyAt, CM.ASSISTANT, FollowUpText(step.followUp), None, []);
        assert Respond(session, userInput, step).1 == Some(CM.Appended(s1, reply));
        UserContentsAppendOne(s1, reply);
        assert (s1.turns + [reply])[..|s0.turns| + 1] == s1.turns;
      }
    }
  }

  /** Appending a turn adds one user turn exactly when it is a user turn. */
  lemma UserContentsAppendOne(s: CM.ConversationSession, t: CM.ConversationTurn)
    ensures CM.UserTurnCount(CM.Appended(s, t)) == CM.UserTurnCount(s) + (if t.speaker == CM.USER then 1 else 0)
  {
    CM.UserContentsAppend(s.turns, t);
  }

  /** From a session without user turns to `s`, the turns added are the user
      turns of `s` and, once there is one, exactly one other turn. */
  ghost predicate OneReplyAdded(s0: CM.ConversationSession, s: CM.ConversationSession) {
    |s.turns| == |s0.turns| + CM.UserTurnCount(s) + (if CM.UserTurnCount(s) == 0 then 0 else 1)
  }

  /** What `Converse` keeps after `handled` responses from a session `s0`
      without user turns: `s` only has more turns, at most one user turn per
      response and one other turn, and it is `s0` while no user turn is
      recorded. */
  ghost predicate ConverseState(s0: CM.ConversationSession, s: CM.ConversationSession, handled: nat) {
    && CM.Extends(s0, s)
    && OneReplyAdded(s0, s)
    && CM.UserTurnCount(s) <= handled
    && (CM.UserTurnCount(s) == 0 ==> s == s0)
  }

  /** One more response keeps `ConverseState`; it asks to go on only as the
      first response, after recording the first user turn. */
  lemma ConverseStep(s0: CM.ConversationSession, before: Option<CM.ConversationSession>, userInput: string,
                     step: Step, handled: nat)
    requires before.Some? && CM.SessionValid(before.value) && userInput != "" && CM.UserTurnCount(s0) == 0
    requires handled <= 1 && ConverseState(s0, before.value, handled)
    requires handled == 1 ==> CM.UserTurnCount(before.value) == 1
    ensures var r := Respond(before, userInput, step);
      && r.1.Some? && ConverseState(s0, r.1.value, handled + 1)
      && (r.0 == Ok(true) ==> handled == 0 && CM.UserTurnCount(r.1.value) == 1)
  {
    var r := Respond(before, userInput, step);
    RespondKeepsValid(before, userInput, step);
    if r.0 == Ok(true) {
      RespondContinues(before, userInput, step);
      GoOnKeepsConverseState(s0, before.value, r.1.value, handled);
    } else {
      RespondStopRecordsOneTurn(before, userInput, step);
      StopKeepsConverseState(s0, before.value, r.1.value, handled);
    }
  }

  lemma GoOnKeepsConverseState(s0: CM.ConversationSession, b: CM.ConversationSession, s: CM.ConversationSession,
                               handled: nat)
    requires handled <= 1 && ConverseState(s0, b, handled) && (handled == 1 ==> CM.UserTurnCount(b) == 1)
    requires CM.Extends(b, s) && CM.UserTurnCount(b) == 0 && CM.UserTurnCount(s) == 1 && |s.turns| == |b.turns| + 2
    ensures handled == 0 && ConverseState(s0, s, handled + 1)
  {
  }

  lemma StopKeepsConverseState(s0: CM.ConversationSession, b: CM.ConversationSession, s: CM.ConversationSession,
                               handled: nat)
    requires handled <= 1 && ConverseState(s0, b, handled) && (handled == 1 ==> CM.UserTurnCount(b) == 1)
    requires CM.Extends(b, s) && |s.turns| + CM.UserTurnCount(b) == |b.turns| + CM.UserTurnCount(s)
    requires CM.UserTurnCount(s) <= CM.UserTurnCount(b) + 1 && (CM.UserTurnCount(b) == 0 ==> s == b)
    ensures ConverseState(s0, s, handled + 1)
  {
  }

  /** A response that ends the conversation records at most the user turn,
      and every turn it records is a user turn. */
  lemma RespondStopRecordsOneTurn(session: Option<CM.ConversationSession>, userInput: string, step: Step)
    requires session.Some? && userInput != ""
    requires Respond(session, userInput, step).0 != Ok(true)
    ensures var s := Respond(session, userInput, step).1;
      && s.Some? && |s.value.turns| <= |session.value.turns| + 1
      && |s.value.turns| + CM.UserTurnCount(session.value) == |session.value.turns| + CM.UserTurnCount(s.value)
      && CM.UserTurnCount(s.value) <= CM.UserTurnCount(session.value) + 1
      && (CM.UserTurnCount(session.value) == 0 ==> s == session)
  {
    var (added, afterUser) := CM.AddTurnTo(session, CM.USER, userInput, step.userAt, step.turnAnalysis);
    if added.Ok? {
      UserContentsAppendOne(session.value, CM.ConversationTurn(step.userAt, CM.USER, userInput, Some(0.0), []));
    }
  }

  /** The conversation goes on only after the first user turn, with exactly
      the user turn and one follow-up question recorded. */
  lemma RespondContinues(session: Option<CM.ConversationSession>, userInput: string, step: Step)
    requires session.Some? && userInput != ""
    requires Respond(session, userInput, step).0 == Ok(true)
    ensures var s0 := session.value;
      var s := Respond(session, userInput, step).1;
      && s.Some?
      && CM.UserTurnCount(s0) == 0
      && CM.UserTurnCount(s.value) == 1
      && s.value.turns
         == s0.turns + [CM.ConversationTurn(step.userAt, CM.USER, userInput, Some(0.0), []),
                        CM.ConversationTurn(step.replyAt, CM.ASSISTANT, FollowUpText(step.followUp), None, [])]
  {
    var s0 := session.value;
    var userTurn := CM.ConversationTurn(step.userAt, CM.USER, userInput, Some(0.0), []);
    var s1 := CM.Appended(s0, userTurn);
    var added := CM.AddTurnTo(session, CM.USER, userInput, step.userAt, step.turnAnalysis);
    assert added.0.Ok?;
    assert added.1 == Some(s1);
    var decision := CM.ShouldContinue(Some(s1), step.checkAt, step.checkAnalysis);
    assert decision.Ok? && decision.value.0;
    UserContentsAppendOne(s0, userTurn);
    var reply := CM.ConversationTurn(step.replyAt, CM.ASSISTANT, FollowUpText(step.followUp), None, []);
    assert Respond(session, userInput, step).1 == CM.AddTurnTo(Some(s1), CM.ASSISTANT, reply.content, step.replyAt, None).1;
    UserContentsAppendOne(s1, reply);
  }

  /** One line the user types (empty when input ends) and what the response
      to it sees. */
  datatype Exchange = Exchange(input: string, step: Step)

  class RolePlayChatbot {
    const manager: CM.ConversationManager
    const llm: LC.LLMClient
    var currentTopic: Option<Topic>

    /** The manager keeps its invariant, and a running session is on the
        current topic. */
    ghost predicate Valid()
      reads this, manager
    {
      && manager.Valid()
      && (manager.currentSession.Some? ==> currentTopic == Some(manager.currentSession.value.topic))
    }

    constructor(model: string)
      ensures Valid() && fresh(manager) && fresh(llm) && currentTopic == None
      ensures manager.currentSession == None && manager.saveConversations
      ensures llm.model == model && llm.conversationHistory == [] && llm.systemPrompt == ""
    {
      manager := new CM.ConversationManager(true);
      llm := new LC.LLMClient(model);
      currentTopic := None;
    }

    /** `get_topic` once the choice is read: nothing, some catalog topic, or
        the numbered catalog topic. */
    method GetTopic(choice: string) returns (t: Option<Topic>)
      ensures InterpretTopicChoice(choice) == NoTopic ==> t == None
      ensures InterpretTopicChoice(choice) == RandomTopic ==> t.Some? && t.value in CatalogTopics()
      ensures InterpretTopicChoice(choice).Numbered? ==>
        t == Some(CatalogTopics()[InterpretTopicChoice(choice).index])
    {
      match InterpretTopicChoice(choice)
      case NoTopic =>
        t := None;
      case RandomTopic =>
        var picked := GetRandomTopic();
        t := Some(picked);
      case Numbered(i) =>
        t := Some(CatalogTopics()[i]);
    }

    /** `start_conversation`: a new session on `topic` (started at
        `startedAt`) whose only turn is the topic's introduction (recorded at
        `introducedAt`), and the topic's persona as the system prompt. */
    method StartConversation(topic: Topic, startedAt: Instant, introducedAt: Instant)
      requires Valid()
      modifies this, manager, llm
      ensures Valid()
      ensures currentTopic == Some(topic)
      ensures manager.currentSession
           == Some(CM.ConversationSession(CM.SessionId(topic.name, startedAt), topic, startedAt, None,
                                          [CM.ConversationTurn(introducedAt, CM.ASSISTANT, topic.introduction, None, [])],
                                          None, 0, ""))
      ensures llm.systemPrompt == LC.PersonaPrompt(topic)
      ensures llm.conversationHistory == old(llm.conversationHistory)
    {
      currentTopic := Some(topic);
      var _ := manager.StartNewSession(topic, startedAt);
      llm.SetSystemPrompt(LC.PersonaPrompt(topic));
      var _ := manager.AddTurn(CM.ASSISTANT, topic.introduction, introducedAt, None);
    }

    /** `handle_response`, as `Respond` describes it. */
    method HandleResponse(userInput: string, step: Step) returns (r: Result<bool>)
      requires Valid()
      modifies manager
      ensures Valid()
      ensures (r, manager.currentSession) == Respond(old(manager.currentSession), userInput, step)
    {
      if userInput == "" {
        return Ok(true);
      }
      ghost var s0 := manager.currentSession;
      var added := manager.AddTurn(CM.USER, userInput, step.userAt, step.turnAnalysis);
      if added.Err? {
        return Err(added.error);
      }
      var decision := manager.ShouldContinueConversation(step.checkAt, step.checkAnalysis);
      if decision.Err? {
        return Err(decision.error);
      }
      if !decision.value.0 {
        return Ok(false);
      }
      var _ := manager.AddTurn(CM.ASSISTANT, FollowUpText(step.followUp), step.replyAt, None);
      r := Ok(true);
    }

    /** The inner loop of `run_conversation` on a fresh session: read a line,
        stop on an empty line or an exit request, else respond, and stop when
        the response says so or raises. At most two responses are made, the
        session keeps at most two user turns and three more turns, and it is
        left as it was unless a user turn was recorded. Besides the user
        turns, the only turn added is the one follow-up question. */
    method Converse(script: seq<Exchange>) returns (handled: nat)
      requires Valid() && manager.currentSession.Some?
      requires CM.UserTurnCount(manager.currentSession.value) == 0
      modifies manager
      ensures Valid() && manager.currentSession.Some?
      ensures CM.Extends(old(manager.currentSession).value, manager.currentSession.value)
      ensures handled <= 2 && handled <= |script|
      ensures CM.UserTurnCount(manager.currentSession.value) <= handled
      ensures |manager.currentSession.value.turns| <= |old(manager.currentSession).value.turns| + 3
      ensures OneReplyAdded(old(manager.currentSession).value, manager.currentSession.value)
      ensures CM.UserTurnCount(manager.currentSession.value) == 0 ==> manager.currentSession == old(manager.currentSession)
    {
      ghost var s0 := manager.currentSession.value;
      handled := 0;
      var i := 0;
      while i < |script|
        invariant 0 <= i <= |script| && handled <= 1 && handled <= i
        invariant Valid() && manager.currentSession.Some?
        invariant ConverseState(s0, manager.currentSession.value, handled)
        invariant handled == 1 ==> CM.UserTurnCount(manager.currentSession.value) == 1
        decreases |script| - i
      {
        var exchange := script[i];
        if exchange.input == "" || IsExitRequest(exchange.input) {
          break;
        }
        ConverseStep(s0, manager.currentSession, exchange.input, exchange.step, handled);
        var r := HandleResponse(exchange.input, exchange.step);
        handled := handled + 1;
        i := i + 1;
        if r != Ok(true) {
          break;
        }
      }
    }

    /** One topic of `run_conversation`: start, converse, end the session.
        The results come back only for a session in which the user never had
        a turn recorded: its only turn is the introduction and its score is
        0.0. Otherwise ending the session raises, and the session, stamped,
        stays current with one or two user turns. */
    method RunTopic(topic: Topic, startedAt: Instant, introducedAt: Instant, script: seq<Exchange>,
                    endedAt: Instant, endAnalysis: Option<KeywordAnalysis>)
      returns (results: Result<Option<CM.SessionRecord>>)
      requires Valid()
      modifies this, manager, llm
      ensures Valid()
      ensures results.Ok? ==>
        && manager.currentSession == None
        && results.value.Some?
        && results.value.value.topic == topic.name
        && results.value.value.userTurns == 0
        && results.value.value.finalScore == 0.0
        && results.value.value.totalUserWords == 0
        && results.value.value.turns == [CM.ConversationTurn(introducedAt, CM.ASSISTANT, topic.introduction, None, [])]
      ensures results.Err? ==>
        && results.error == NO_COVERAGE_PERCENTAGE
        && manager.currentSession.Some?
        && manager.currentSession.value.endTime == Some(endedAt)
        && 1 <= CM.UserTurnCount(manager.currentSession.value) <= 2
        && |manager.currentSession.value.turns| <= 4
    {
      StartConversation(topic, startedAt, introducedAt);
      var _ := Converse(script);
      results := manager.EndSession(endedAt, endAnalysis);
    }
  }
}
