# Role-play conversation coach, modelled in Dafny

The system runs a spoken or typed conversation about one topic from a fixed
catalog (weather, software performance, road traffic, job interviews, city
planning in volcanic areas) and scores how much of the topic's key vocabulary
the user has covered. Each topic carries a keyword list and an introduction.
The keyword analyzer merges a case-insensitive substring test per keyword with
a language-model analysis (matched terms and a relevance map) and turns the
result into a 0–100 score. The conversation manager keeps one session at a
time: it records turns, rescores all user text on every user turn, decides
whether the conversation goes on, and produces the end-of-session record. The
chat client keeps a message history and a system prompt and builds the
message list sent to the model. The chatbot reads the topic choice, yes/no
answers and exit requests, and drives the manager turn by turn.

The model is written in the source's own form:

- `KeywordAnalyzer`, `Config` and the string, dict, list and clock modules
  are pure: datatypes, functions and lemmas.
- `find_keyword_matches` and both context builders are loops. They are
  methods with loop invariants, each proved equal to a specification function.
- `ConversationManager`, `LLMClient` and `RolePlayChatbot` are classes. Their
  fields are updated by methods with `modifies` clauses.
- The manager's steps and the chatbot's response are also given as functions
  on the session value (`AddTurnTo`, `ShouldContinue`, `Respond`). The
  methods are proved equal to them, and the lemmas are stated over them.

Every clock read, every answer of the language model and every line the user
types is a parameter. A model answer is `Some(..)` when the call returned and
`None` when it raised.

The source reads three attributes that its classes do not have:

- `relevance_score` on a keyword match, at `add_turn` and `end_session`;
- `coverage_percentage` on a scoring result, at `should_continue_conversation`
  and `end_session`;
- `detailed_breakdown` on a scoring result, at `end_session`.

Each of these paths is modelled as it runs: it ends in
`Err(AttributeError(..))` and leaves the state the source leaves behind. The
model proves what follows from this:

- A user turn is recorded only when no keyword was kept for the user's text,
  so every recorded user turn scores 0.0.
- The stop ladder answers "continue" only while there are fewer than two user
  turns.
- The chatbot makes at most two responses per conversation and records at
  most one follow-up question.
- Ending a session succeeds only when the user never had a turn recorded.
  Otherwise `end_session` raises and leaves the stamped session current.

Facts of the scoring code that the model keeps:

- Keyword weights are never read by the scorer, although the help text in
  `main.py:61` says keywords are weighted and `config/config.py:12` calls the
  weight an importance multiplier.
- There is no coverage bonus, although `main.py:63` announces one.
- Presence is a lower-cased substring test, so a term inside a longer word
  counts.
- Matches are keyed by the term as written in the catalog.
- A scoring result has no `coverage_percentage` or `detailed_breakdown`
  attribute, so the code paths that read them raise.
- Suggestions are a single "Try discussing: …" line naming up to three
  missing terms.

## Model

| member | source | states |
|---|---|---|
| Strings.Lower | src/keyword_analyzer.py:59-60 | `lower()` on ASCII keeps the length and lowers each character. |
| Strings.ContainsIff | src/keyword_analyzer.py:61 | The `in` test on strings holds exactly when the needle occurs at some index of the text. |
| Strings.WordCountJoin | src/conversation_manager.py:127 | The `split()` word count of the space-joined parts is the sum of the parts' counts. |
| Strings.Strip | src/llm_client.py:112 | `strip()` gives the window of the input that is left once the leading and trailing whitespace is removed: everything outside the window is whitespace, and the window neither starts nor ends with whitespace. It is empty exactly when the input is all whitespace. |
| Strings.ParseDecimal | src/chatbot.py:63 | `int()` reads the decimal form of every natural number back as that number. |
| Strings.ParseDigits | src/chatbot.py:63 | `int()` reads a non-empty run of ASCII digits as its decimal value. |
| PyDict.Get | src/keyword_analyzer.py:107-111 | Reading `matches[term]`: there is a value exactly when the key is present, and it is the value of the first entry with that key. |
| PyDict.Put | src/keyword_analyzer.py:107-111 | Assigning a key adds it to the keys, makes it map to the new value and leaves the other keys' values alone. The size grows only for a new key. |
| PyDict.PutDistinct | src/keyword_analyzer.py:107-111 | Assignment never duplicates a key. |
| PyDict.Values | src/chatbot.py:65 | `values()` lists the values in insertion order. |
| PyList.SliceFrom | src/conversation_manager.py:162 | `items[start:]` is the suffix of the list holding its last min(-start, len) items for a negative start, and its last max(0, len - start) items otherwise. |
| PyList.RecentWindow | src/conversation_manager.py:162 | The recent-items window is a suffix of the list. |
| PyList.RecentWindowPositive | src/llm_client.py:77 | For a positive bound n the window holds the last min(n, len) items. |
| PyList.RecentWindowZero | src/llm_client.py:77 | A zero bound keeps the whole list, because `[-0:]` is `[0:]`. |
| PyList.RecentWindowNegative | src/conversation_manager.py:162 | A negative bound -n drops the first n items instead. |
| Clock.StampShape | src/conversation_manager.py:86 | The `%Y%m%d_%H%M%S` stamp is fifteen characters: eight digits, `_`, six digits. |
| Config.KeywordWeightDefault | config/config.py:16 | A keyword built without a weight weighs 1.0. |
| Config.CatalogTopics | config/config.py:33-109 | The catalog lists five topics. |
| Config.CatalogKeywordCounts | config/config.py:37-106 | The topics have 5, 7, 7, 8 and 9 keywords, so none is empty. |
| Config.CatalogKeywordLists | config/config.py:33-109 | Each catalog position holds that topic's keyword list. |
| Config.CatalogKeys | config/config.py:33-109 | The catalog holds `TOPIC_COUNT` (five) topics, under the keys "weather", "software_performance", "road_traffic", "job_interview" and "volcanic_city_planning", in that order. |
| Config.CatalogKeywordsWellFormed | config/config.py:37-106 | For each of the five topic indexes, that topic's terms are pairwise distinct and every weight is 1.0. |
| Config.WeatherKeywordsWellFormed | config/config.py:37-43 | The weather terms are pairwise distinct, and each weighs 1.0. |
| Config.SoftwareKeywordsWellFormed | config/config.py:50-58 | The software-performance terms are pairwise distinct, and each weighs 1.0. |
| Config.RoadKeywordsWellFormed | config/config.py:65-73 | The road-traffic terms are pairwise distinct, and each weighs 1.0. |
| Config.JobKeywordsWellFormed | config/config.py:80-89 | The job-interview terms are pairwise distinct, and each weighs 1.0. |
| Config.VolcanicKeywordsWellFormed | config/config.py:96-106 | The volcanic-city-planning terms are pairwise distinct, and each weighs 1.0. |
| Config.GetRandomTopic | config/config.py:111-117 | The random pick is a member of the catalog. |
| KeywordAnalyzer.CheckKeywordInTextIff | src/keyword_analyzer.py:57-61 | A keyword is present exactly when its lower-cased term occurs somewhere in the lower-cased text. |
| KeywordAnalyzer.AiScore | src/keyword_analyzer.py:94 | `relevance_scores.get(term, 0.0)`: the model's relevance for the exact term when it rated it, otherwise 0.0. |
| KeywordAnalyzer.SubstringNotWholeWord | src/keyword_analyzer.py:57-61 | Presence is substring containment, not a whole-word test: a term with any text on either side is present, so "research" is found in "researchers". |
| KeywordAnalyzer.FindKeywordMatches | src/keyword_analyzer.py:83-113 | The loop builds exactly the dict of the keyword-by-keyword recurrence. Only the listed matches and the 0.0 default for a missing relevance are used; the model is asked once. |
| KeywordAnalyzer.MatchesKeys | src/keyword_analyzer.py:89-111 | The keys are exactly the kept terms: found in the text, listed by the model, or rated above 0.1. Each appears once, so there are no more entries than keywords. |
| KeywordAnalyzer.MatchesEntry | src/keyword_analyzer.py:89-111 | Each entry holds its term's found flag and score, and the last keyword with that term: a repeated term overwrites the earlier entry. |
| KeywordAnalyzer.ScoresNonNegative | src/keyword_analyzer.py:100-111 | Every recorded score is at least 0. Found terms are clamped by `max(0, ·)`, and other terms are kept only above 0.1. |
| KeywordAnalyzer.CalculateScore | src/keyword_analyzer.py:115-134 | The total lies in [0, 100] and is 0 without matches. `total_keywords` is the number of topic keywords. `keywords_found` is the number of matches and never exceeds it. Keys are distinct and are the kept terms. |
| KeywordAnalyzer.FailedAnalysisScoresZero | src/keyword_analyzer.py:76-124 | When the model call raises, the matches are the substring hits, and the total is 0 however many there are. |
| KeywordAnalyzer.FoundInTurnFoundInConversation | src/keyword_analyzer.py:136-139 | A term present in one turn is present in the space-joined conversation. |
| KeywordAnalyzer.TermAcrossTurnBoundary | src/keyword_analyzer.py:136-139 | A term can straddle two turns: for any two turns, the joined text contains the first, a space and the second, so "air" then "pressure" matches "air pressure". |
| KeywordAnalyzer.GetMissingKeywords | src/keyword_analyzer.py:141-145 | The missing terms are exactly the topic terms without an entry. |
| KeywordAnalyzer.MissingKeywordsExactly | src/keyword_analyzer.py:85-145 | A topic term is missing from the score of a text exactly when it is not in the lower-cased text, the model did not list it, and the model rated it at most 0.1. |
| KeywordAnalyzer.GenerateImprovementSuggestions | src/keyword_analyzer.py:147-158 | There is no suggestion exactly when nothing is missing. Otherwise there is one, "Try discussing: " followed by the first missing terms joined by ", ". |
| KeywordAnalyzer.SuggestedTermsAreMissing | src/keyword_analyzer.py:151-153 | The suggestion names min(3, number missing) distinct terms, each a missing topic term. |
| ConversationManager.UserContents | src/conversation_manager.py:121 | The contents of the user turns: every user turn's content is in the list, and every entry is the content of some user turn. |
| ConversationManager.UserTurnPosition | src/conversation_manager.py:121 | The user turn with j user turns before it supplies entry j, so the entries follow the turns' order. |
| ConversationManager.UserContentOrigin | src/conversation_manager.py:121 | Entry j comes from a user turn with exactly j user turns before it, so there is one entry per user turn. |
| ConversationManager.SessionIdShape | src/conversation_manager.py:86 | The session id is the lower-cased name with spaces turned into `_`, then `_`, then the start-time stamp. |
| ConversationManager.WordsOfScoredText | src/conversation_manager.py:120-127 | Under the session invariant, the running word count is the `split()` count of the very text the analyzer scores. |
| ConversationManager.AppendRecorded | src/conversation_manager.py:120-129 | Appending a turn as `add_turn` records it keeps the invariant: words equal the sum over user turns, and user turns hold score 0.0 and no matches. |
| ConversationManager.AddTurnTo | src/conversation_manager.py:98-131 | Without a session the call raises ValueError and changes nothing. A non-user turn is appended unscored. A user turn raises (state unchanged) exactly when the rescoring kept a keyword. Otherwise it is appended with score 0.0 and its words counted. |
| ConversationManager.AddTurnKeepsValid | src/conversation_manager.py:120-129 | `add_turn` keeps the invariant. On success it appends exactly one turn, adds one user turn for a user speaker, and adds that turn's words. |
| ConversationManager.AddTurnExtends | src/conversation_manager.py:120-129 | `add_turn` on a session changes nothing but the turn list, which only grows, and the word total. |
| ConversationManager.RecordedUserTextHasNoKeyword | src/conversation_manager.py:120-127 | A user turn is recorded only if no topic term is present in, or kept for, the user text so far plus the new turn. |
| ConversationManager.CurrentScore | src/conversation_manager.py:133-148 | The result is (0.0, None) exactly when there is no session or no user turn. Otherwise it is the analysis of the user turns and its total, in [0, 100]. |
| ConversationManager.ShouldContinue | src/conversation_manager.py:206-236 | The checks run in order: no session stops; fewer than 2 user turns continue. With 2 or more user turns the answer is a stop when the score is at least 80, there are at least 8 user turns, or more than ten minutes have passed. Otherwise the missing `coverage_percentage` raises. "Continue" happens only with fewer than 2 user turns. |
| ConversationManager.ShouldContinueReasons | src/conversation_manager.py:218-231 | Each stop names its rung, and each reason comes only from its rung. "Excellent coverage" means 2 or more user turns and a score of at least 80. "Good length" means a score below 80 and at least 8 user turns. "Time limit" means a score below 80, 2 to 7 user turns and more than ten minutes since the start. |
| ConversationManager.EmptySessionRecord | src/conversation_manager.py:251-270 | The record returned for a session holds its turns, with 0 user turns, final score 0.0 and the elapsed minutes. |
| ConversationManager.ConversationManager.constructor | src/conversation_manager.py:63-75 | A new manager has no session. |
| ConversationManager.ConversationManager.StartNewSession | src/conversation_manager.py:77-96 | Any current session is replaced, without a check, by an empty one: no turns, 0 words, no end time or score, and the id from the topic name and start time. |
| ConversationManager.ConversationManager.AddTurn | src/conversation_manager.py:98-131 | The result and the new session are those of `AddTurnTo`, and the invariant is kept. |
| ConversationManager.AsContext | src/conversation_manager.py:163-170 | One role/content/time entry per turn, in the same order. |
| ConversationManager.ConversationManager.GetConversationContext | src/conversation_manager.py:150-172 | The result is nothing without a session. Otherwise it is the entries of the recent window of turns, oldest first. |
| ConversationManager.ConversationManager.EndSession | src/conversation_manager.py:238-288 | Without a session: None, nothing changes. With no user turn the record is returned and the session cleared. With a user turn the end time and final score are stamped, then the missing `coverage_percentage` raises and the session stays current. |
| LlmClient.AsApi | src/llm_client.py:79-80 | Each history message becomes one role/content request message, in order. |
| LlmClient.ContextSystemMessage | src/llm_client.py:72-82 | The system message leads exactly when the prompt is non-empty. The rest is the recent history window. |
| LlmClient.ContextLatestMessages | src/llm_client.py:72-82 | For `max_messages` ≥ 1, after the system message come the last min(max, len) messages, in order. |
| LlmClient.ContextZeroSendsAll | src/llm_client.py:77 | With `max_messages == 0` every message is sent. |
| LlmClient.KeyAreas | src/llm_client.py:191 | The key-area lines are one `- term: description` line for each of the first min(cap, len) keywords. |
| LlmClient.PersonaListsKeyAreas | src/llm_client.py:178-202 | The persona prompt names each of the first six key areas. |
| LlmClient.FollowUpListsKeyAreas | src/llm_client.py:135-150 | The follow-up prompt names each of the first eight key areas. |
| LlmClient.FollowUpQuestion | src/llm_client.py:152-164 | A failed call gives the fixed question. A successful one gives the stripped answer, a window of it that neither starts nor ends with whitespace. |
| LlmClient.LLMClient.constructor | src/llm_client.py:29-39 | A new client has the given model, no history and an empty prompt. |
| LlmClient.LLMClient.SetSystemPrompt | src/llm_client.py:41-47 | The prompt is replaced and the history untouched. |
| LlmClient.LLMClient.AddMessage | src/llm_client.py:49-57 | Exactly one untimed message with the given role and content is appended. Earlier messages and the prompt are unchanged. |
| LlmClient.LLMClient.ClearHistory | src/llm_client.py:59-61 | The history is emptied and the prompt kept. |
| LlmClient.LLMClient.GetConversationContext | src/llm_client.py:63-82 | The loop builds exactly the system message plus the recent window, and changes nothing. |
| LlmClient.LLMClient.GenerateResponse | src/llm_client.py:84-119 | The user message is appended before the call, and the call sees it in its ten-message window. On success exactly one assistant message, the stripped answer, is appended and returned. On failure None is returned and the user message stays. |
| Chatbot.InterpretTopicChoice | src/chatbot.py:56-70 | An empty choice picks nothing. A choice picks at random exactly when it is non-empty and contains "random" in any case or is the random option's number; this is checked before the number. Otherwise a number k with 1 ≤ k ≤ 5 picks topic k, and anything else picks nothing. |
| Chatbot.RandomOptionNumber | src/chatbot.py:59 | The random option's number "6" is the decimal form of one more than the number of topics. |
| Chatbot.MenuNumberSelects | src/chatbot.py:62-65 | Typing a menu number k selects catalog topic k, in catalog order. |
| Chatbot.LeadingZeroIsNoChoice | src/chatbot.py:59-70 | "06" reads as 6 but is not the random option, so it picks nothing. |
| Chatbot.IsAffirmative | src/chatbot.py:228-231 | An empty response is never a yes. A response containing "yes" in any case always is. |
| Chatbot.AffirmativeIgnoresCase | src/chatbot.py:231 | The yes test gives the same answer for a response and its lower-cased form. |
| Chatbot.AffirmativeBySubstring | src/chatbot.py:231 | "yes" counts wherever it stands, even inside another word. |
| Chatbot.ExitRequestInside | src/chatbot.py:191-192 | Text around an exit request does not stop it being one. |
| Chatbot.WeekendEndsConversation | src/chatbot.py:191-192 | "weekend" is an exit request, because it contains "end". |
| Chatbot.FollowUpText | src/chatbot.py:139-150 | The recorded follow-up is never empty. It is the model's answer without surrounding whitespace unless that is blank, and the fixed question when it is blank or the call failed. |
| Chatbot.Respond | src/chatbot.py:115-156 | An empty input returns true and records nothing. The only errors are no session, the missing `relevance_score` and the missing `coverage_percentage`. |
| Chatbot.RespondKeepsValid | src/chatbot.py:124-156 | One response on a valid session leaves a valid session that differs only by appended turns. |
| Chatbot.RespondRecordsUserTurnFirst | src/chatbot.py:124-156 | One response either leaves the session unchanged or records the user turn first. An unchanged user-turn count means an unchanged session. At most one user turn is added. |
| Chatbot.RespondStopRecordsOneTurn | src/chatbot.py:124-156 | A response that does not return true adds at most one turn, and that turn is a user turn. On a session with no user turn it adds nothing, because the first user turn always continues. |
| Chatbot.RespondContinues | src/chatbot.py:124-156 | A response returns true only on a session with no user turn yet. It then has recorded exactly the user turn and one follow-up question, so the session has one user turn. |
| Chatbot.RolePlayChatbot.constructor | src/chatbot.py:15-28 | A new chatbot has a fresh manager without a session, a fresh client, and no topic. |
| Chatbot.RolePlayChatbot.GetTopic | src/chatbot.py:41-70 | No choice gives None. The random choice gives a catalog topic. Number k gives catalog topic k. |
| Chatbot.RolePlayChatbot.StartConversation | src/chatbot.py:73-88 | The session is new and holds exactly one turn, the topic's introduction spoken by the assistant. The system prompt is the topic's persona, and the chat history is unchanged. |
| Chatbot.RolePlayChatbot.HandleResponse | src/chatbot.py:115-156 | The result and the new session are those of `Respond`. |
| Chatbot.RolePlayChatbot.Converse | src/chatbot.py:185-197 | The loop makes at most two responses. The session keeps at most two user turns and at most three more turns. It is unchanged unless a user turn was recorded. Besides the user turns, exactly one turn is added once a user turn exists: the single follow-up question. |
| Chatbot.ConverseStep | src/chatbot.py:185-197 | One more response in the loop keeps that shape. It asks to go on only as the first response, and then the session has exactly one user turn. |
| Chatbot.RolePlayChatbot.RunTopic | src/chatbot.py:182-204 | Results come back only for a session whose one turn is the introduction, with 0 user turns and score 0.0. Otherwise ending raises, and the stamped session stays current with one or two user turns and at most four turns. |

## Left out

- Speech input and output, the audio test, sleeps and the speech retry loop are left out. They are I/O and concurrency.
- `main.py` (argument parsing, banner, mode menu) is not part of this model. It is user interface.
- Logging is left out; every log call is a no-op.
- Environment and `.env` configuration are constants or parameters here.
- `save_session`, `load_session`, `list_saved_conversations`, the directory creation and JSON encoding are left out. They are file I/O whose errors the source swallows. The session record is a datatype.
- `get_conversation_summary` and `generate_progress_report` are left out. They only format text, and both reach the same missing attributes when there is a user turn.
- `show_topics`, `show_results`, `send_message`, `get_user_input` and the farewell text are left out. They are display and input. A read line is a parameter; input that ends or is interrupted is the empty line.
- `test_connection` and the outer loop of `run_conversation` (retrying topic choice and starting a new conversation) are left out. One topic's run is `RunTopic`. When its `end_session` raises, `run_conversation` itself raises.
- The two clock reads in `start_new_session`, for the id stamp and for the start time, are one instant here.
- Each read in `handle_response` has its own instant: the user turn, the stop check and the follow-up turn.
- The `get_current_score` call at src/chatbot.py:130 is left out. Its score only feeds the follow-up prompt, and the model's answer to that prompt is a parameter.
- The `except` branch of `handle_response` is left out. With a session present, nothing in its `try` can raise.
- The formatted reason strings of `should_continue_conversation` are modelled as a `Reason` value. Its last two rungs (lines 233-236) are unreachable, because line 233 raises first.
- `isoformat()` timestamps are kept as `Instant` values.
- `:.1f` score text is a parameter of `FollowUpPrompt`.
- The persona and follow-up prompts are reproduced, but the request they lead to is abstract. Only the history effect of `generate_response` is modelled.
- `random.choice` is a nondeterministic pick from the catalog.
- Floating point is modelled as exact `real` arithmetic, with no IEEE rounding.
- `int()` is modelled as decimal digits with an optional sign and surrounding ASCII whitespace. Underscores and non-ASCII digits are not accepted.
- `lower()` and `isspace()` are modelled on ASCII only; no Unicode case mapping or Unicode spaces.
- Strings.ParseInt: its contract states only that a parsed text is not blank. Its behaviour on digit strings is stated by `Strings.ParseDecimal`.
- Chatbot.IsAffirmative: its contract gives the two directions that hold for every input. The exact set of short affirmatives is stated by its definition only.
- The analyzer's prompt template and output parser are not part of this model. The model's structured answer is a parameter.
- `list(set)` order in `get_missing_keywords` is open. Any listing of the missing set is accepted.
