/** The single-session conversation state machine: an optional current
    session that `StartNewSession` overwrites, `AddTurn` extends and scores,
    and `EndSession` stamps and clears, plus the read-only score query, the
    stop ladder and the recent-turn window.

    Three reads in the source name attributes the analyzer's classes do not
    have: `relevance_score` on a keyword match, and `coverage_percentage`
    (and `detailed_breakdown`) on a scoring result. Each such path ends here
    in `Err(AttributeError(..))`, with the state the source leaves behind. */
module ConversationManager {
  import opened Outcomes
  import opened Strings
  import opened PyDict
  import opened PyList
  import opened Clock
  import opened Config
  import opened KeywordAnalyzer

  const USER: string := "user"
  const ASSISTANT: string := "assistant"

  /** Stop once the score reaches this. */
  const EXCELLENT_SCORE: real := 80.0
  /** Stop once this many user turns were taken. */
  const MAX_USER_TURNS: nat := 8
  /** Keep going while there are fewer user turns than this. */
  const MIN_USER_TURNS: nat := 2

  /** One message of the conversation. `score` is set on user turns only. */
  datatype ConversationTurn = ConversationTurn(timestamp: Instant, speaker: string, content: string,
                                               score: Option<real>, keywordMatches: Dict<real>)

  datatype ConversationSession = ConversationSession(
    sessionId: string, topic: Topic, startTime: Instant, endTime: Option<Instant>,
    turns: seq<ConversationTurn>, finalScore: Option<real>, totalUserWords: nat, sessionSummary: string)

  /** One entry of `get_conversation_context` (its timestamp is rendered with
      `isoformat()` in the source). */
  datatype ContextEntry = ContextEntry(role: string, content: string, timestamp: Instant)

  /** The context entries of turns, in order. */
  function AsContext(turns: seq<ConversationTurn>): (r: seq<ContextEntry>)
    ensures |r| == |turns|
    ensures forall i :: 0 <= i < |turns| ==>
      r[i] == ContextEntry(turns[i].speaker, turns[i].content, turns[i].timestamp)
  {
    if turns == [] then []
    else AsContext(turns[..|turns| - 1]) + [ContextEntry(turns[|turns| - 1].speaker, turns[|turns| - 1].content, turns[|turns| - 1].timestamp)]
  }

  /** Converting one more turn of a prefix appends its entry. */
  lemma AsContextPrefix(turns: seq<ConversationTurn>, i: nat)
    requires i < |turns|
    ensures AsContext(turns[..i + 1])
      == AsContext(turns[..i]) + [ContextEntry(turns[i].speaker, turns[i].content, turns[i].timestamp)]
  {
    assert turns[..i + 1][..i] == turns[..i];
  }

  /** The dict `end_session` returns on its successful path. It never holds a
      `scoring_details` key, because that key is only built when there is a
      scoring result, and building it raises. */
  datatype SessionRecord = SessionRecord(
    sessionId: string, topic: string, startTime: Instant, endTime: Instant, durationMinutes: real,
    finalScore: real, totalTurns: nat, userTurns: nat, totalUserWords: nat, turns: seq<ConversationTurn>)

  /** Which rung of the stop ladder decided (the formatted reason text is
      not modelled). */
  datatype Reason = NoSession | NeedMoreInput | ExcellentCoverage | GoodLength | TimeLimit

  /** The contents of the user turns, in order. */
  function UserContents(turns: seq<ConversationTurn>): (r: seq<string>)
    ensures |r| <= |turns|
    ensures forall i :: 0 <= i < |turns| && turns[i].speaker == USER ==> turns[i].content in r
    ensures forall c :: c in r ==> exists i :: 0 <= i < |turns| && turns[i].speaker == USER && turns[i].content == c
  {
    if turns == [] then []
    else
      var init := turns[..|turns| - 1];
      var last := turns[|turns| - 1];
      assert forall i :: 0 <= i < |init| ==> init[i] == turns[i];
      UserContents(init) + (if last.speaker == USER then [last.content] else [])
  }

  /** A user turn with `j` user turns before it supplies the `j`-th user
      content. */
  lemma {:induction false} UserTurnPosition(turns: seq<ConversationTurn>, i: nat)
    requires i < |turns| && turns[i].speaker == USER
    ensures |UserContents(turns[..i])| < |UserContents(turns)|
    ensures UserContents(turns)[|UserContents(turns[..i])|] == turns[i].content
    decreases |turns|
  {
    var n := |turns| - 1;
    var init := turns[..n];
    assert init + [turns[n]] == turns;
    UserContentsAppend(init, turns[n]);
    if i < n {
      assert init[i] == turns[i];
      UserTurnPosition(init, i);
      assert init[..i] == turns[..i];
    } else {
      assert turns[..i] == init;
    }
  }

  /** Every user content comes from a user turn: the `j`-th from the one
      with exactly `j` user turns before it. */
  lemma {:induction false} UserContentOrigin(turns: seq<ConversationTurn>, j: nat)
    requires j < |UserContents(turns)|
    ensures exists i :: 0 <= i < |turns| && turns[i].speaker == USER && |UserContents(turns[..i])| == j
    decreases |turns|
  {
    var n := |turns| - 1;
    var init := turns[..n];
    assert init + [turns[n]] == turns;
    UserContentsAppend(init, turns[n]);
    if j < |UserContents(init)| {
      UserContentOrigin(init, j);
      var i :| 0 <= i < |init| && init[i].speaker == USER && |UserContents(init[..i])| == j;
      assert init[..i] == turns[..i];
      assert init[i] == turns[i];
    } else {
      assert turns[..n] == init;
      assert turns[n].speaker == USER;
    }
  }

  lemma UserContentsAppend(turns: seq<ConversationTurn>, t: ConversationTurn)
    ensures UserContents(turns + [t]) == UserContents(turns) + (if t.speaker == USER then [t.content] else [])
  {
    assert (turns + [t])[..|turns|] == turns;
  }

  /** `f"{name.lower().replace(' ', '_')}_{now:%Y%m%d_%H%M%S}"`. */
  function SessionId(topicName: string, now: Instant): string {
    ReplaceChar(Lower(topicName), ' ', '_') + "_" + Stamp(now)
  }

  /** The id is the normalised name (no spaces, no upper case, same length),
      an underscore, and the fifteen-character stamp of the start time. */
  lemma SessionIdShape(topicName: string, now: Instant)
    ensures var id := SessionId(topicName, now);
      && |id| == |topicName| + 16
      && id[|topicName|] == '_'
      && id[|topicName| + 1..] == Stamp(now)
      && forall i :: 0 <= i < |topicName| ==> id[i] != ' ' && !IsUpper(id[i])
  {
    StampShape(now);
  }

  /** What `add_turn` records on a turn that made it into the session: user
      turns carry a score (always 0.0, see `AddTurn`), and no turn carries
      keyword matches. */
  ghost predicate TurnRecorded(t: ConversationTurn) {
    && t.keywordMatches == []
    && t.score == (if t.speaker == USER then Some(0.0) else None)
  }

  /** The session invariant: the running word count is the sum of the
      `split()` counts of the user turns, and every turn is as recorded. */
  ghost predicate SessionValid(s: ConversationSession) {
    && s.totalUserWords == WordCountSum(UserContents(s.turns))
    && forall i :: 0 <= i < |s.turns| ==> TurnRecorded(s.turns[i])
  }

  /** The running word count equals the word count of the very text the
      analyzer scores. */
  lemma WordsOfScoredText(s: ConversationSession)
    requires SessionValid(s)
    ensures s.totalUserWords == WordCount(Join(" ", UserContents(s.turns)))
  {
    WordCountJoin(UserContents(s.turns));
  }

  /** The session after `turn` is appended and, for a user turn, its words
      are counted. */
  function Appended(s: ConversationSession, t: ConversationTurn): ConversationSession {
    s.(turns := s.turns + [t],
       totalUserWords := s.totalUserWords + (if t.speaker == USER then WordCount(t.content) else 0))
  }

  /** Appending a turn recorded as `add_turn` records it keeps the session
      invariant. */
  lemma AppendRecorded(s: ConversationSession, t: ConversationTurn)
    requires SessionValid(s) && TurnRecorded(t)
    ensures SessionValid(Appended(s, t))
  {
    var a := Appended(s, t);
    assert a.turns == s.turns + [t];
    AppendedWords(s.turns, t);
    assert a.totalUserWords == WordCountSum(UserContents(a.turns));
    AppendedRecorded(s.turns, t);
  }

  /** Appending a turn adds its words to the user word count exactly when it
      is a user turn. */
  lemma AppendedWords(turns: seq<ConversationTurn>, t: ConversationTurn)
    ensures WordCountSum(UserContents(turns + [t]))
         == WordCountSum(UserContents(turns)) + (if t.speaker == USER then WordCount(t.content) else 0)
  {
    UserContentsAppend(turns, t);
    var parts := UserContents(turns + [t]);
    if t.speaker == USER {
      assert parts == UserContents(turns) + [t.content];
      assert parts[..|parts| - 1] == UserContents(turns) && parts[|parts| - 1] == t.content;
    } else {
      assert parts == UserContents(turns);
    }
  }

  lemma AppendedRecorded(turns: seq<ConversationTurn>, t: ConversationTurn)
    requires forall i :: 0 <= i < |turns| ==> TurnRecorded(turns[i])
    requires TurnRecorded(t)
    ensures forall i :: 0 <= i < |turns + [t]| ==> TurnRecorded((turns + [t])[i])
  {
    forall i | 0 <= i < |turns + [t]|
      ensures TurnRecorded((turns + [t])[i])
    {
      if i < |turns| {
        assert (turns + [t])[i] == turns[i];
      }
    }
  }

  /** The number of user turns of a session. */
  function UserTurnCount(s: ConversationSession): nat {
    |UserContents(s.turns)|
  }

  /** `add_turn` on the session it finds, with the model's answer `reply` to
      the analysis call a user turn makes: the result and the session it
      leaves. Without a session it raises `ValueError`. A non-user turn is
      appended unscored. A user turn rescores all user text so far plus
      `content`; when any keyword was kept, building the turn's match map
      reads the missing `relevance_score` and raises before anything is
      changed. So a user turn is only ever recorded with an empty match dict,
      hence with score 0.0. */
  function AddTurnTo(session: Option<ConversationSession>, speaker: string, content: string, now: Instant,
                     reply: Option<KeywordAnalysis>): (r: (Result<Option<real>>, Option<ConversationSession>))
    ensures session.None? ==> r == (Err(NO_ACTIVE_SESSION), None)
    ensures r.0.Err? ==> r.1 == session
    ensures session.Some? && speaker != USER ==>
      r == (Ok(None), Some(Appended(session.value, ConversationTurn(now, speaker, content, None, []))))
    ensures session.Some? && speaker == USER ==>
      var s := session.value;
      var scored := AnalyzeConversation(UserContents(s.turns) + [content], s.topic, reply);
      && (r.0.Ok? <==> scored.keywordMatches == [])
      && (r.0.Err? ==> r.0.error == NO_RELEVANCE_SCORE)
      && (r.0.Ok? ==> r == (Ok(Some(0.0)), Some(Appended(s, ConversationTurn(now, USER, content, Some(0.0), [])))))
  {
    if session.None? then (Err(NO_ACTIVE_SESSION), session)
    else
      var s := session.value;
      if speaker != USER then
        (Ok(None), Some(Appended(s, ConversationTurn(now, speaker, content, None, []))))
      else
        var scored := AnalyzeConversation(UserContents(s.turns) + [content], s.topic, reply);
        if scored.keywordMatches != [] then (Err(NO_RELEVANCE_SCORE), session)
        else (Ok(Some(scored.totalScore)), Some(Appended(s, ConversationTurn(now, USER, content, Some(scored.totalScore), []))))
  }

  /** `add_turn` keeps the session invariant, and a recorded turn is the
      last one: a user turn adds one user turn and its `split()` words. */
  lemma AddTurnKeepsValid(session: Option<ConversationSession>, speaker: string, content: string, now: Instant,
                          reply: Option<KeywordAnalysis>)
    requires session.Some? && SessionValid(session.value)
    ensures var r := AddTurnTo(session, speaker, content, now, reply);
      && r.1.Some? && SessionValid(r.1.value)
      && (r.0.Ok? ==>
            && r.1.value.turns == session.value.turns + [r.1.value.turns[|r.1.value.turns| - 1]]
            && UserTurnCount(r.1.value) == UserTurnCount(session.value) + (if speaker == USER then 1 else 0)
            && r.1.value.totalUserWords
               == session.value.totalUserWords + (if speaker == USER then WordCount(content) else 0))
  {
    var r := AddTurnTo(session, speaker, content, now, reply);
    if r.0.Ok? {
      var t := r.1.value.turns[|r.1.value.turns| - 1];
      assert r.1.value == Appended(session.value, t);
      AppendRecorded(session.value, t);
      UserContentsAppend(session.value.turns, t);
    }
  }

  /** The later session grew from the earlier one by turns only. */
  ghost predicate Extends(earlier: ConversationSession, later: ConversationSession) {
    && earlier.turns <= later.turns
    && later == earlier.(turns := later.turns, totalUserWords := later.totalUserWords)
  }

  /** `add_turn` on a session leaves a session that only has more turns. */
  lemma AddTurnExtends(session: Option<ConversationSession>, speaker: string, content: string, now: Instant,
                       reply: Option<KeywordAnalysis>)
    requires session.Some?
    ensures var r := AddTurnTo(session, speaker, content, now, reply);
      r.1.Some? && Extends(session.value, r.1.value)
  {
  }

  /** A user turn is recorded only when no topic keyword was kept for the
      user text so far plus the new turn: in particular none of the topic's
      terms occurs in that text. */
  lemma RecordedUserTextHasNoKeyword(session: Option<ConversationSession>, content: string, now: Instant,
                                     reply: Option<KeywordAnalysis>, k: Keyword)
    requires session.Some? && k in session.value.topic.keywords
    requires AddTurnTo(session, USER, content, now, reply).0.Ok?
    ensures !CheckKeywordInText(Join(" ", UserContents(session.value.turns) + [content]), k.term)
    ensures !Kept(Join(" ", UserContents(session.value.turns) + [content]), k.term, AnalyzeWithLangchain(reply))
  {
    var text := Join(" ", UserContents(session.value.turns) + [content]);
    var ai := AnalyzeWithLangchain(reply);
    var keywords := session.value.topic.keywords;
    assert Kept(text, k.term, ai) ==> k.term in KeptTerms(text, keywords, ai);
  }

  /** `get_current_score` on the session it finds: `(0.0, None)` without a
      session or user turns, otherwise the analysis of all user text (with
      the model's answer `reply`) and its total. */
  function CurrentScore(session: Option<ConversationSession>, reply: Option<KeywordAnalysis>): (r: (real, Option<ScoringResult>))
    ensures 0.0 <= r.0 <= 100.0
    ensures r.1.None? <==> session.None? || UserContents(session.value.turns) == []
    ensures r.1.Some? ==>
      && r.0 == r.1.value.totalScore
      && r.1.value == AnalyzeConversation(UserContents(session.value.turns), session.value.topic, reply)
    ensures r.1.None? ==> r.0 == 0.0
  {
    if session.None? then (0.0, None)
    else
      var userTurns := UserContents(session.value.turns);
      if userTurns == [] then (0.0, None)
      else
        var scored := AnalyzeConversation(userTurns, session.value.topic, reply);
        (scored.totalScore, Some(scored))
  }

  /** `should_continue_conversation` on the session it finds, the stop
      ladder: no session stops; fewer than two user turns continue; then a
      score of at least 80, at least eight user turns, or more than ten
      minutes since the start stop. Past those rungs the source reads the
      missing `coverage_percentage` and raises, so with two or more user
      turns the answer is never "continue". */
  function ShouldContinue(session: Option<ConversationSession>, now: Instant, reply: Option<KeywordAnalysis>)
    : (r: Result<(bool, Reason)>)
    ensures session.None? ==> r == Ok((false, NoSession))
    ensures session.Some? && UserTurnCount(session.value) < MIN_USER_TURNS ==> r == Ok((true, NeedMoreInput))
    ensures r.Ok? && r.value.0 ==> session.Some? && UserTurnCount(session.value) < MIN_USER_TURNS
    ensures session.Some? && UserTurnCount(session.value) >= MIN_USER_TURNS ==>
      (r.Ok? <==> (|| CurrentScore(session, reply).0 >= EXCELLENT_SCORE
                   || UserTurnCount(session.value) >= MAX_USER_TURNS
                   || ElapsedMicros(session.value.startTime, now) > TEN_MINUTES))
    ensures r.Err? ==> r.error == NO_COVERAGE_PERCENTAGE
  {
    if session.None? then Ok((false, NoSession))
    else if UserTurnCount(session.value) < MIN_USER_TURNS then Ok((true, NeedMoreInput))
    else if CurrentScore(session, reply).0 >= EXCELLENT_SCORE then Ok((false, ExcellentCoverage))
    else if UserTurnCount(session.value) >= MAX_USER_TURNS then Ok((false, GoodLength))
    else if ElapsedMicros(session.value.startTime, now) > TEN_MINUTES then Ok((false, TimeLimit))
    else Err(NO_COVERAGE_PERCENTAGE)
  }

  /** The reason each stopping rung of the ladder gives, and the rung each
      reason comes from: the score rung comes before the length rung, which
      comes before the time rung. */
  lemma ShouldContinueReasons(session: Option<ConversationSession>, now: Instant, reply: Option<KeywordAnalysis>)
    ensures var r := ShouldContinue(session, now, reply);
      r == Ok((false, ExcellentCoverage)) <==>
        session.Some? && UserTurnCount(session.value) >= MIN_USER_TURNS && CurrentScore(session, reply).0 >= EXCELLENT_SCORE
    ensures var r := ShouldContinue(session, now, reply);
      r == Ok((false, GoodLength)) <==>
        && session.Some? && UserTurnCount(session.value) >= MIN_USER_TURNS
        && CurrentScore(session, reply).0 < EXCELLENT_SCORE && UserTurnCount(session.value) >= MAX_USER_TURNS
    ensures var r := ShouldContinue(session, now, reply);
      r == Ok((false, TimeLimit)) <==>
        && session.Some? && MIN_USER_TURNS <= UserTurnCount(session.value) < MAX_USER_TURNS
        && CurrentScore(session, reply).0 < EXCELLENT_SCORE && ElapsedMicros(session.value.startTime, now) > TEN_MINUTES
  {
  }

  /** The record `end_session` returns: final score 0.0 and no user turns,
      because it is only returned for a session without user turns. */
  function EmptySessionRecord(s: ConversationSession, now: Instant): (r: SessionRecord)
    requires UserContents(s.turns) == []
    ensures r.totalTurns == |s.turns| && r.userTurns == 0 && r.finalScore == 0.0
    ensures r.durationMinutes == ElapsedMinutes(s.startTime, now)
    ensures r.sessionId == s.sessionId && r.topic == s.topic.name && r.turns == s.turns
  {
    SessionRecord(s.sessionId, s.topic.name, s.startTime, now, ElapsedMinutes(s.startTime, now),
                  CurrentScore(Some(s), None).0, |s.turns|, |UserContents(s.turns)|, s.totalUserWords, s.turns)
  }

  class ConversationManager {
    var currentSession: Option<ConversationSession>
    const saveConversations: bool

    ghost predicate Valid()
      reads this
    {
      currentSession.Some? ==> SessionValid(currentSession.value)
    }

    constructor(saveConversations: bool := true)
      ensures Valid() && currentSession == None && this.saveConversations == saveConversations
    {
      this.saveConversations := saveConversations;
      currentSession := None;
    }

    /** `start_new_session`: replaces any current session, without checking,
        by an empty one on `topic`. */
    method StartNewSession(topic: Topic, now: Instant) returns (sessionId: string)
      modifies this
      ensures Valid()
      ensures sessionId == SessionId(topic.name, now)
      ensures currentSession == Some(ConversationSession(sessionId, topic, now, None, [], None, 0, ""))
    {
      sessionId := SessionId(topic.name, now);
      currentSession := Some(ConversationSession(sessionId, topic, now, None, [], None, 0, ""));
    }

    /** `add_turn`, as `AddTurnTo` describes it. */
    method AddTurn(speaker: string, content: string, now: Instant, reply: Option<KeywordAnalysis>)
      returns (r: Result<Option<real>>)
      requires Valid()
      modifies this
      ensures Valid()
      ensures (r, currentSession) == AddTurnTo(old(currentSession), speaker, content, now, reply)
    {
      if currentSession.None? {
        return Err(NO_ACTIVE_SESSION);
      }
      AddTurnKeepsValid(currentSession, speaker, content, now, reply);
      var s := currentSession.value;
      if speaker != USER {
        currentSession := Some(Appended(s, ConversationTurn(now, speaker, content, None, [])));
        return Ok(None);
      }
      var scored := AnalyzeConversation(UserContents(s.turns) + [content], s.topic, reply);
      if scored.keywordMatches != [] {
        return Err(NO_RELEVANCE_SCORE);
      }
      var turn := ConversationTurn(now, USER, content, Some(scored.totalScore), []);
      currentSession := Some(Appended(s, turn));
      r := Ok(turn.score);
    }

    /** `get_current_score`; it only reads the session. */
    function GetCurrentScore(reply: Option<KeywordAnalysis>): (real, Option<ScoringResult>)
      reads this
    {
      CurrentScore(currentSession, reply)
    }

    /** `should_continue_conversation`; it only reads the session. */
    function ShouldContinueConversation(now: Instant, reply: Option<KeywordAnalysis>): Result<(bool, Reason)>
      reads this
    {
      ShouldContinue(currentSession, now, reply)
    }

    /** `get_conversation_context`: the most recent turns (all of them when
        there are at most `maxTurns`), oldest first, as role/content/time
        entries; nothing without a session. */
    method GetConversationContext(maxTurns: int) returns (context: seq<ContextEntry>)
      ensures currentSession.None? ==> context == []
      ensures currentSession.Some? ==> context == AsContext(RecentWindow(currentSession.value.turns, maxTurns))
    {
      if currentSession.None? {
        return [];
      }
      var turns := currentSession.value.turns;
      var recent: seq<ConversationTurn> := if |turns| > maxTurns then SliceFrom(turns, -maxTurns) else turns;
      assert recent == RecentWindow(turns, maxTurns);
      context := [];
      var i := 0;
      while i < |recent|
        invariant 0 <= i <= |recent|
        invariant context == AsContext(recent[..i])
      {
        var turn := recent[i];
        AsContextPrefix(recent, i);
        context := context + [ContextEntry(turn.speaker, turn.content, turn.timestamp)];
        i := i + 1;
      }
      assert recent[..i] == recent;
    }

    /** `end_session`. Without a session: `None`, nothing changes. Otherwise
        the end time and final score are stamped first. With no user turn the
        record is returned and the session is cleared. With a user turn there
        is a scoring result, building `scoring_details` reads the missing
        `coverage_percentage` and raises: the stamped session stays current. */
    method EndSession(now: Instant, reply: Option<KeywordAnalysis>) returns (r: Result<Option<SessionRecord>>)
      requires Valid()
      modifies this
      ensures Valid()
      ensures old(currentSession).None? ==> r == Ok(None) && currentSession == None
      ensures old(currentSession).Some? && UserContents(old(currentSession).value.turns) == [] ==>
        && currentSession == None
        && r == Ok(Some(EmptySessionRecord(old(currentSession).value, now)))
      ensures old(currentSession).Some? && UserContents(old(currentSession).value.turns) != [] ==>
        var s := old(currentSession).value;
        && r == Err(NO_COVERAGE_PERCENTAGE)
        && currentSession == Some(s.(endTime := Some(now), finalScore := Some(CurrentScore(Some(s), reply).0)))
    {
      if currentSession.None? {
        return Ok(None);
      }
      var (finalScore, scoring) := GetCurrentScore(reply);
      var s := currentSession.value.(endTime := Some(now), finalScore := Some(finalScore));
      currentSession := Some(s);
      if scoring.Some? {
        return Err(NO_COVERAGE_PERCENTAGE);
      }
      var record := SessionRecord(s.sessionId, s.topic.name, s.startTime, now,
                                  ElapsedMinutes(s.startTime, now), finalScore, |s.turns|,
                                  |UserContents(s.turns)|, s.totalUserWords, s.turns);
      currentSession := None;
      r := Ok(Some(record));
    }
  }
}
